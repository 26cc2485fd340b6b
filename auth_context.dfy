/** The authentication context: the signed-in user, the "users" collection
    of profile documents, and the browser's local storage where the
    remember-me choice is kept. Each awaited call to the auth provider or the
    document store is an `Outcome` parameter. */
module AuthContext {
  import opened Common

  /** The signed-in account as the auth provider reports it. */
  datatype User = User(uid: string, email: string, displayName: Option<string>)

  /** The fields of `updateUserProfile(updates)`; only the display name is
      ever passed. */
  datatype ProfileUpdate = ProfileUpdate(displayName: Option<string>)

  /** A "users" document. Merge writes can leave a field unset. */
  datatype UserDoc = UserDoc(email: Option<string>, displayName: Option<string>)

  const RememberKey := "rememberMe"
  const EmailKey := "userEmail"
  const NoUser := Error("", "No user logged in")

  /** `{...currentUser, ...updates}`: a field the update carries replaces the
      user's, every other field is kept. */
  function Merge(u: User, upd: ProfileUpdate): (r: User)
    ensures r.uid == u.uid && r.email == u.email
    ensures upd.displayName.Some? ==> r.displayName == upd.displayName
    ensures upd.displayName.None? ==> r == u
  {
    if upd.displayName.Some? then u.(displayName := upd.displayName) else u
  }

  /** Storage after a successful login: the choice and the e-mail are kept
      when remember-me is ticked, and both keys are removed otherwise. */
  function Remembered(storage: map<string, string>, email: string, rememberMe: bool): (m: map<string, string>)
    ensures rememberMe ==> RememberKey in m && m[RememberKey] == "true" && EmailKey in m && m[EmailKey] == email
    ensures !rememberMe ==> RememberKey !in m && EmailKey !in m
    ensures forall k :: k != RememberKey && k != EmailKey ==> (k in m <==> k in storage) && (k in m ==> m[k] == storage[k])
  {
    if rememberMe then storage[RememberKey := "true"][EmailKey := email]
    else storage - {RememberKey, EmailKey}
  }

  /** The login page's mount effect: the e-mail to prefill, when the choice
      is "true" and a non-empty e-mail is stored. */
  function Prefill(storage: map<string, string>): (r: Option<string>)
    ensures r.Some? <==> RememberKey in storage && storage[RememberKey] == "true"
                         && EmailKey in storage && storage[EmailKey] != ""
    ensures r.Some? ==> r.value == storage[EmailKey]
  {
    if RememberKey in storage && storage[RememberKey] == "true" && EmailKey in storage && storage[EmailKey] != ""
    then Some(storage[EmailKey])
    else None
  }

  /** Remember-me round trip: after a login that ticked it, the next visit
      to the login page prefills the same e-mail (when it is not empty);
      after one that did not, nothing is prefilled, whatever was stored. Keys
      other than the two are left alone. */
  lemma RememberRoundTrip(storage: map<string, string>, email: string, rememberMe: bool)
    ensures rememberMe && email != "" ==> Prefill(Remembered(storage, email, rememberMe)) == Some(email)
    ensures !rememberMe ==> Prefill(Remembered(storage, email, rememberMe)) == None
    ensures forall k :: k != RememberKey && k != EmailKey ==>
              (k in Remembered(storage, email, rememberMe) <==> k in storage)
              && (k in storage ==> Remembered(storage, email, rememberMe)[k] == storage[k])
  {
  }

  /** getUserDisplayName: the display name of the first document, in the
      order the query lists them (`order`, by document id), whose e-mail is
      the one asked for; None when there is none, when that document has no
      display name, or when the query fails. */
  function GetUserDisplayName(users: map<string, UserDoc>, order: seq<string>, email: string, query: Outcome): (r: Option<string>)
    ensures r.Some? ==> query.Succeeded? && (exists i :: 0 <= i < |order| && order[i] in users
                                                 && users[order[i]].email == Some(email) && users[order[i]].displayName == r)
    ensures (forall i :: 0 <= i < |order| && order[i] in users ==> users[order[i]].email != Some(email)) ==> r == None
  {
    DisplayNameFound(users, order, email);
    if query.Failed? then None else FirstDisplayName(users, order, email)
  }

  /** The name of the first listed document with the e-mail: one that such a
      document carries, and none when no listed document has the e-mail. */
  function FirstDisplayName(users: map<string, UserDoc>, order: seq<string>, email: string): (r: Option<string>)
    ensures r.Some? ==> exists id :: id in order && id in users && users[id].email == Some(email) && users[id].displayName == r
    ensures (forall id :: id in order && id in users ==> users[id].email != Some(email)) ==> r == None
  {
    if order == [] then None
    else if order[0] in users && users[order[0]].email == Some(email) then users[order[0]].displayName
    else FirstDisplayName(users, order[1..], email)
  }

  /** A name is returned only when some listed document with that e-mail
      carries it, and one is returned when the first such document has
      one. */
  lemma {:induction false} DisplayNameFound(users: map<string, UserDoc>, order: seq<string>, email: string)
    ensures var r := FirstDisplayName(users, order, email);
            r.Some? ==> exists i :: 0 <= i < |order| && order[i] in users
                                    && users[order[i]].email == Some(email) && users[order[i]].displayName == r
    ensures (forall i :: 0 <= i < |order| && order[i] in users ==> users[order[i]].email != Some(email)) ==>
              FirstDisplayName(users, order, email) == None
    ensures forall i :: (0 <= i < |order| && order[i] in users && users[order[i]].email == Some(email)
                         && (forall j :: 0 <= j < i && order[j] in users ==> users[order[j]].email != Some(email))) ==>
              FirstDisplayName(users, order, email) == users[order[i]].displayName
  {
    if order != [] {
      DisplayNameFound(users, order[1..], email);
      var r := FirstDisplayName(users, order, email);
      if !(order[0] in users && users[order[0]].email == Some(email)) {
        if r.Some? {
          var i :| 0 <= i < |order[1..]| && order[1..][i] in users
                   && users[order[1..][i]].email == Some(email) && users[order[1..][i]].displayName == r;
          assert order[i + 1] == order[1..][i];
        }
        forall i | 0 <= i < |order| && order[i] in users && users[order[i]].email == Some(email)
                   && (forall j :: 0 <= j < i && order[j] in users ==> users[order[j]].email != Some(email))
          ensures r == users[order[i]].displayName
        {
          assert i > 0;
          assert order[1..][i - 1] == order[i];
          forall j | 0 <= j < i - 1 && order[1..][j] in users
            ensures users[order[1..][j]].email != Some(email)
          {
            assert order[1..][j] == order[j + 1];
          }
        }
      }
    }
  }

  /** Everything the context holds, as one value. */
  datatype AuthState = AuthState(currentUser: Option<User>, users: map<string, UserDoc>, storage: map<string, string>)

  class Auth {
    var currentUser: Option<User>
    var users: map<string, UserDoc>
    var storage: map<string, string>

    function State(): AuthState
      reads this
    {
      AuthState(currentUser, users, storage)
    }

    constructor (docs: map<string, UserDoc>, stored: map<string, string>)
      ensures State() == AuthState(None, docs, stored)
    {
      currentUser := None;
      users := docs;
      storage := stored;
    }

    /** signup: create the account (which signs it in), set its display name,
        then write its "users" document; the first failing step's error is
        rethrown and the later steps do not run. */
    method Signup(email: string, displayName: string, uid: string,
                  created: Outcome, profiled: Outcome, stored: Outcome) returns (r: Outcome)
      modifies this
      ensures created.Failed? ==> r == created && State() == old(State())
      ensures created.Succeeded? && profiled.Failed? ==>
                r == profiled && State() == old(State()).(currentUser := Some(User(uid, email, None)))
      ensures created.Succeeded? && profiled.Succeeded? && stored.Failed? ==>
                r == stored && State() == old(State()).(currentUser := Some(User(uid, email, Some(displayName))))
      ensures created.Succeeded? && profiled.Succeeded? && stored.Succeeded? ==>
                r == Succeeded
                && State() == old(State()).(currentUser := Some(User(uid, email, Some(displayName))),
                                            users := old(users)[uid := UserDoc(Some(email), Some(displayName))])
      // only a completed signup reports success, and then the account is signed in with its name on file
      ensures r.Succeeded? ==>
                currentUser == Some(User(uid, email, Some(displayName)))
                && uid in users && users[uid].displayName == Some(displayName)
    {
      if created.Failed? {
        return created;
      }
      currentUser := Some(User(uid, email, None));
      if profiled.Failed? {
        return profiled;
      }
      currentUser := Some(User(uid, email, Some(displayName)));
      if stored.Failed? {
        return stored;
      }
      users := users[uid := UserDoc(Some(email), Some(displayName))];
      r := Succeeded;
    }

    /** login: a successful sign-in records or forgets the remember-me choice;
        a failed one rethrows and touches nothing. */
    method Login(email: string, rememberMe: bool, account: User, signedIn: Outcome) returns (r: Outcome)
      modifies this
      ensures signedIn.Failed? ==> r == signedIn && State() == old(State())
      ensures signedIn.Succeeded? ==>
                r == Succeeded
                && State() == old(State()).(currentUser := Some(account), storage := Remembered(old(storage), email, rememberMe))
    {
      if signedIn.Failed? {
        return signedIn;
      }
      currentUser := Some(account);
      storage := Remembered(storage, email, rememberMe);
      r := Succeeded;
    }

    /** loginWithGoogle: the popup signs the account in, then its e-mail and
        display name are merged into its "users" document (a missing display
        name overwrites a stored one). */
    method LoginWithGoogle(account: User, popup: Outcome, stored: Outcome) returns (r: Outcome)
      modifies this
      ensures popup.Failed? ==> r == popup && State() == old(State())
      ensures popup.Succeeded? && stored.Failed? ==> r == stored && State() == old(State()).(currentUser := Some(account))
      ensures popup.Succeeded? && stored.Succeeded? ==>
                r == Succeeded
                && State() == old(State()).(currentUser := Some(account),
                                            users := old(users)[account.uid := UserDoc(Some(account.email), account.displayName)])
    {
      if popup.Failed? {
        return popup;
      }
      currentUser := Some(account);
      if stored.Failed? {
        return stored;
      }
      users := users[account.uid := UserDoc(Some(account.email), account.displayName)];
      r := Succeeded;
    }

    /** logout: the auth listener clears the user once sign-out succeeds. */
    method Logout(signedOut: Outcome) returns (r: Outcome)
      modifies this
      ensures signedOut.Failed? ==> r == signedOut && State() == old(State())
      ensures signedOut.Succeeded? ==> r == Succeeded && State() == old(State()).(currentUser := None)
    {
      if signedOut.Failed? {
        return signedOut;
      }
      currentUser := None;
      r := Succeeded;
    }

    /** updateUserProfile: without a user it throws; otherwise the provider
        profile is updated, then, for a non-empty display name, the "users"
        document's display name is merged in, and only then is the local user
        replaced by the merge of the update. */
    method UpdateUserProfile(upd: ProfileUpdate, profiled: Outcome, stored: Outcome) returns (r: Outcome)
      modifies this
      ensures old(currentUser).None? ==> r == Failed(NoUser) && State() == old(State())
      ensures old(currentUser).Some? && profiled.Failed? ==> r == profiled && State() == old(State())
      ensures (old(currentUser).Some? && profiled.Succeeded? && upd.displayName.Some? && upd.displayName.value != ""
               && stored.Failed?) ==> r == stored && State() == old(State())
      ensures (old(currentUser).Some? && profiled.Succeeded? && upd.displayName.Some? && upd.displayName.value != ""
               && stored.Succeeded?) ==>
                var uid := old(currentUser).value.uid;
                var doc := if uid in old(users) then old(users)[uid].(displayName := upd.displayName)
                           else UserDoc(None, upd.displayName);
                r == Succeeded
                && State() == old(State()).(currentUser := Some(Merge(old(currentUser).value, upd)),
                                            users := old(users)[uid := doc])
      ensures old(currentUser).Some? && profiled.Succeeded? && !(upd.displayName.Some? && upd.displayName.value != "") ==>
                r == Succeeded && State() == old(State()).(currentUser := Some(Merge(old(currentUser).value, upd)))
      // the signed-in account never changes identity
      ensures currentUser.Some? <==> old(currentUser).Some?
      ensures currentUser.Some? ==>
                currentUser.value.uid == old(currentUser).value.uid && currentUser.value.email == old(currentUser).value.email
    {
      if currentUser.None? {
        return Failed(NoUser);
      }
      if profiled.Failed? {
        return profiled;
      }
      if upd.displayName.Some? && upd.displayName.value != "" {
        if stored.Failed? {
          return stored;
        }
        var uid := currentUser.value.uid;
        var doc := if uid in users then users[uid].(displayName := upd.displayName) else UserDoc(None, upd.displayName);
        users := users[uid := doc];
      }
      currentUser := Some(Merge(currentUser.value, upd));
      r := Succeeded;
    }

    /** updateUserPassword: without a user it throws; otherwise the
        provider's answer is passed on. Nothing the model holds changes. */
    method UpdateUserPassword(updated: Outcome) returns (r: Outcome)
      ensures currentUser.None? ==> r == Failed(NoUser)
      ensures currentUser.Some? ==> r == updated
    {
      if currentUser.None? {
        return Failed(NoUser);
      }
      r := updated;
    }
  }
}
