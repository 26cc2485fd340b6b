/** The shared-wallets page: creating a wallet, inviting a member by e-mail
    and deleting a wallet, over the "sharedWallets" collection. */
module SharedWalletPage {
  import opened Common
  import opened WalletLedger

  /** The new-wallet form. The budget field is collected but never stored. */
  datatype WalletForm = WalletForm(name: string, description: string, budget: string)

  function EmptyWalletForm(): WalletForm {
    WalletForm("", "", "")
  }

  /** The document a successful create stores: trimmed name and description,
      the creator as its only member, no expenses and a zero total. */
  function NewWallet(f: WalletForm, email: string, now: Instant): (w: Wallet)
    ensures |w.name| <= |f.name| && (w.name != "" ==> !IsSpace(w.name[0]) && !IsSpace(w.name[|w.name| - 1]))
    ensures |w.description| <= |f.description|
    ensures w.name == Trim(f.name) && w.description == Trim(f.description)
    ensures w.createdBy == email && w.members == [email] && w.createdAt == now
    ensures w.expenses == [] && w.totalSpent == 0
  {
    Wallet(Trim(f.name), Trim(f.description), email, [email], now, [], 0)
  }

  /** Only the creator of a wallet is offered its delete button. */
  predicate OffersDelete(w: Wallet, email: string) {
    w.createdBy == email
  }

  /** A new wallet starts balanced, with the creator as its only member, and
      only the creator may delete it. */
  lemma NewWalletIsBalanced(f: WalletForm, email: string, now: Instant)
    ensures Balanced(NewWallet(f, email, now))
    ensures NewWallet(f, email, now).members == [email]
    ensures forall other :: OffersDelete(NewWallet(f, email, now), other) <==> other == email
  {
  }

  /** Inviting puts the trimmed address after the members the page last saw;
      there is no duplicate and no format check. */
  lemma InviteAppends(members: seq<string>, invite: string)
    requires Trim(invite) != ""
    ensures var r := members + [Trim(invite)];
            |r| == |members| + 1 && r[..|members|] == members && r[|members|] == Trim(invite)
            && !IsSpace(r[|members|][0])
  {
    var r := members + [Trim(invite)];
    assert r[..|members|] == members;
  }

  const NameRequired := "Wallet name is required"
  const MustBeLoggedIn := "Failed to create shared wallet: You must be logged in to create a wallet"
  const Created := "Shared wallet created successfully!"
  const EmailRequired := "Please enter a valid email address"
  const NoWalletSelected := "Failed to invite member: Cannot read properties of null (reading 'id')"
  const Invited := "Invitation sent successfully!"
  const Deleted := "Wallet deleted successfully!"

  function CreateFailed(e: Error): string { "Failed to create shared wallet: " + e.message }
  function InviteFailed(e: Error): string { "Failed to invite member: " + e.message }
  function DeleteFailed(e: Error): string { "Failed to delete wallet: " + e.message }

  /** The page's own state fields. */
  datatype PageView = PageView(
    openNewWalletDialog: bool,
    openInviteDialog: bool,
    selectedWallet: Option<WalletEntry>,
    newWalletData: WalletForm,
    inviteEmail: string,
    error: string,
    success: string)

  class WalletPage {
    const wallets: WalletCollection
    /** The signed-in user's e-mail, or None when nobody is signed in. */
    const currentUser: Option<string>
    var openNewWalletDialog: bool
    var openInviteDialog: bool
    var selectedWallet: Option<WalletEntry>
    var newWalletData: WalletForm
    var inviteEmail: string
    var error: string
    var success: string

    function View(): PageView
      reads this
    {
      PageView(openNewWalletDialog, openInviteDialog, selectedWallet, newWalletData, inviteEmail, error, success)
    }

    constructor (c: WalletCollection, user: Option<string>)
      ensures wallets == c && currentUser == user
      ensures View() == PageView(false, false, None, EmptyWalletForm(), "", "", "")
    {
      wallets := c;
      currentUser := user;
      openNewWalletDialog := false;
      openInviteDialog := false;
      selectedWallet := None;
      newWalletData := EmptyWalletForm();
      inviteEmail := "";
      error := "";
      success := "";
    }

    /** The "Create Wallet" button. */
    method OpenNewWallet()
      modifies this
      ensures View() == old(View()).(openNewWalletDialog := true)
    {
      openNewWalletDialog := true;
    }

    /** The invite button of a wallet card selects that wallet and opens the
        invite dialog. */
    method OpenInvite(w: WalletEntry)
      modifies this
      ensures View() == old(View()).(selectedWallet := Some(w), openInviteDialog := true)
    {
      selectedWallet := Some(w);
      openInviteDialog := true;
    }

    /** handleCreateWallet. `newId` is the id the backend assigns and `now`
        the creation time. */
    method HandleCreateWallet(backend: Outcome, newId: string, now: Instant)
      modifies this, wallets
      ensures Trim(old(newWalletData.name)) == "" ==>
                View() == old(View()).(error := NameRequired) && wallets.docs == old(wallets.docs)
      ensures Trim(old(newWalletData.name)) != "" && currentUser.None? ==>
                View() == old(View()).(error := MustBeLoggedIn) && wallets.docs == old(wallets.docs)
      ensures Trim(old(newWalletData.name)) != "" && currentUser.Some? && backend.Failed? ==>
                View() == old(View()).(error := CreateFailed(backend.error)) && wallets.docs == old(wallets.docs)
      ensures Trim(old(newWalletData.name)) != "" && currentUser.Some? && backend.Succeeded? ==>
                wallets.docs == old(wallets.docs)[newId := NewWallet(old(newWalletData), currentUser.value, now)]
                && View() == old(View()).(error := "", success := Created, openNewWalletDialog := false,
                                          newWalletData := EmptyWalletForm())
      ensures old(wallets.AllBalanced()) ==> wallets.AllBalanced()
    {
      error := "";
      if Trim(newWalletData.name) == "" {
        error := NameRequired;
        return;
      }
      if currentUser.None? {
        error := MustBeLoggedIn;
        return;
      }
      if backend.Failed? {
        error := CreateFailed(backend.error);
        return;
      }
      var w := NewWallet(newWalletData, currentUser.value, now);
      NewWalletIsBalanced(newWalletData, currentUser.value, now);
      wallets.Create(newId, w);
      success := Created;
      openNewWalletDialog := false;
      newWalletData := EmptyWalletForm();
    }

    /** handleInviteMember. The members written are those of the selected
        wallet as the page last saw it, plus the trimmed address. With no
        wallet selected, reading its id throws inside the try block. */
    method HandleInviteMember(backend: Outcome)
      modifies this, wallets
      ensures Trim(old(inviteEmail)) == "" ==>
                View() == old(View()).(error := EmailRequired) && wallets.docs == old(wallets.docs)
      ensures Trim(old(inviteEmail)) != "" && selectedWallet.None? ==>
                View() == old(View()).(error := NoWalletSelected) && wallets.docs == old(wallets.docs)
      ensures Trim(old(inviteEmail)) != "" && selectedWallet.Some? && backend.Failed? ==>
                View() == old(View()).(error := InviteFailed(backend.error)) && wallets.docs == old(wallets.docs)
      ensures Trim(old(inviteEmail)) != "" && selectedWallet.Some? && backend.Succeeded?
              && selectedWallet.value.id !in old(wallets.docs) ==>
                View() == old(View()).(error := InviteFailed(MissingDocument(selectedWallet.value.id)))
                && wallets.docs == old(wallets.docs)
      ensures Trim(old(inviteEmail)) != "" && selectedWallet.Some? && backend.Succeeded?
              && selectedWallet.value.id in old(wallets.docs) ==>
                var w := selectedWallet.value;
                wallets.docs == old(wallets.docs)[w.id := old(wallets.docs)[w.id].(members := w.data.members + [Trim(old(inviteEmail))])]
                && View() == old(View()).(error := "", success := Invited, openInviteDialog := false, inviteEmail := "")
      ensures old(wallets.AllBalanced()) ==> wallets.AllBalanced()
    {
      error := "";
      if Trim(inviteEmail) == "" {
        error := EmailRequired;
        return;
      }
      if selectedWallet.None? {
        error := NoWalletSelected;
        return;
      }
      var w := selectedWallet.value;
      var r := wallets.SetMembers(w.id, w.data.members + [Trim(inviteEmail)], backend);
      if r.Failed? {
        error := InviteFailed(r.error);
        return;
      }
      success := Invited;
      openInviteDialog := false;
      inviteEmail := "";
    }

    /** handleDeleteWallet; `confirmed` is the answer to the confirmation
        prompt. Only the creator is offered the button (OffersDelete), but the
        handler itself does not check. */
    method HandleDeleteWallet(walletId: string, confirmed: bool, backend: Outcome)
      modifies this, wallets
      ensures !confirmed ==> View() == old(View()) && wallets.docs == old(wallets.docs)
      ensures confirmed && backend.Succeeded? ==>
                View() == old(View()).(success := Deleted) && wallets.docs == old(wallets.docs) - {walletId}
      ensures confirmed && backend.Failed? ==>
                View() == old(View()).(error := DeleteFailed(backend.error)) && wallets.docs == old(wallets.docs)
      ensures old(wallets.AllBalanced()) ==> wallets.AllBalanced()
    {
      if !confirmed {
        return;
      }
      var r := wallets.Delete(walletId, backend);
      if r.Failed? {
        error := DeleteFailed(r.error);
        return;
      }
      success := Deleted;
    }
  }
}
