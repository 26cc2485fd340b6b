/** The expense panel of one shared wallet: adding an expense and deleting one,
    each a single update of the wallet's expense list and total. */
module SharedWalletExpensePanel {
  import opened Common
  import opened WalletLedger

  /** The categories the panel's category picker offers. */
  const WalletCategories: seq<string> := ["Groceries", "Utilities", "Rent", "Entertainment", "Transportation", "Other"]

  /** The add-expense form; `paidBy` is a member's e-mail. */
  datatype ExpenseForm = ExpenseForm(description: string, amount: AmountField, category: string, paidBy: string)

  /** The form as it starts and as a successful add leaves it. */
  function FreshForm(email: string): (f: ExpenseForm)
    ensures f.description == "" && f.amount.Blank? && f.paidBy == email
    ensures f.category == "Other" && f.category in WalletCategories
  {
    ExpenseForm("", Blank, "Other", email)
  }

  /** The expense an add stores: the form's fields, its amount, a fresh id and
      the time of the add. */
  function NewSharedExpense(f: ExpenseForm, id: string, now: Instant): (e: SharedExpense)
    requires f.amount.Entered?
    ensures e.amount == f.amount.cents && e.id == id && e.date == now
    ensures e.description == f.description && e.category == f.category && e.paidBy == f.paidBy
  {
    SharedExpense(id, f.description, f.amount.cents, f.category, f.paidBy, now)
  }

  /** The delete button is shown on an expense to its payer and to the
      wallet's creator. */
  predicate OffersDelete(w: Wallet, e: SharedExpense, email: string) {
    e.paidBy == email || w.createdBy == email
  }

  /** The expenses of `es` on which `email` sees a delete button, in order. */
  function Deletable(w: Wallet, es: seq<SharedExpense>, email: string): (r: seq<SharedExpense>)
    ensures forall e :: e in r <==> e in es && OffersDelete(w, e, email)
  {
    if es == [] then []
    else (if OffersDelete(w, es[0], email) then [es[0]] else []) + Deletable(w, es[1..], email)
  }

  /** The creator may delete every expense; any other user only the ones they
      paid. */
  lemma {:induction false} DeletePermission(w: Wallet, es: seq<SharedExpense>, email: string)
    ensures email == w.createdBy ==> Deletable(w, es, email) == es
    ensures email != w.createdBy ==> forall e :: e in Deletable(w, es, email) <==> e in es && e.paidBy == email
  {
    if es != [] {
      DeletePermission(w, es[1..], email);
      assert es == [es[0]] + es[1..];
    }
  }

  const FieldsRequired := "Please fill in all required fields"
  const Added := "Expense added successfully!"
  const Removed := "Expense deleted successfully!"

  function AddFailed(e: Error): string { "Failed to add expense: " + e.message }
  function DeleteFailed(e: Error): string { "Failed to delete expense: " + e.message }

  /** The panel's own state fields. */
  datatype PanelView = PanelView(
    wallet: WalletEntry,
    openExpenseDialog: bool,
    newExpense: ExpenseForm,
    error: string,
    success: string)

  class ExpensePanel {
    const wallets: WalletCollection
    /** The signed-in member's e-mail. */
    const email: string
    /** The wallet as the page last received it. */
    var wallet: WalletEntry
    var openExpenseDialog: bool
    var newExpense: ExpenseForm
    var error: string
    var success: string

    function View(): PanelView
      reads this
    {
      PanelView(wallet, openExpenseDialog, newExpense, error, success)
    }

    constructor (c: WalletCollection, w: WalletEntry, user: string)
      ensures wallets == c && email == user
      ensures View() == PanelView(w, false, FreshForm(user), "", "")
    {
      wallets := c;
      email := user;
      wallet := w;
      openExpenseDialog := false;
      newExpense := FreshForm(user);
      error := "";
      success := "";
    }

    /** What a parent would do when the panel calls its `onUpdate` prop after a
        successful add or delete: hand the panel the stored document again. No
        component of the repository renders the panel, so no parent exists to
        fix this response; this step stands for it, re-reading the wallet from
        the collection. */
    method Refresh()
      modifies this
      ensures wallet.id in wallets.docs ==> View() == old(View()).(wallet := WalletEntry(wallet.id, wallets.docs[wallet.id]))
      ensures wallet.id !in wallets.docs ==> View() == old(View())
    {
      if wallet.id in wallets.docs {
        wallet := WalletEntry(wallet.id, wallets.docs[wallet.id]);
      }
    }

    /** handleAddExpense. `newId` is the time-based id and `now` the time of
        the add. The total written is computed from the wallet as the panel
        last saw it. */
    method HandleAddExpense(backend: Outcome, newId: string, now: Instant)
      modifies this, wallets
      ensures old(newExpense.amount.Blank? || newExpense.description == "") ==>
                View() == old(View()).(error := FieldsRequired) && wallets.docs == old(wallets.docs)
      ensures old(newExpense.amount.Entered? && newExpense.description != "") ==>
                var e := NewSharedExpense(old(newExpense), newId, now);
                var ok := backend.Succeeded? && wallet.id in old(wallets.docs);
                (ok ==> wallets.docs == old(wallets.docs)[wallet.id := AfterAdd(old(wallets.docs)[wallet.id], wallet.data, e)]
                        && View() == old(View()).(error := "", success := Added, openExpenseDialog := false,
                                                  newExpense := FreshForm(email)))
                && (backend.Failed? ==> View() == old(View()).(error := AddFailed(backend.error))
                                        && wallets.docs == old(wallets.docs))
                && (backend.Succeeded? && !ok ==> View() == old(View()).(error := AddFailed(MissingDocument(wallet.id)))
                                                   && wallets.docs == old(wallets.docs))
      // the ledger invariant survives an add made from an up-to-date copy
      ensures (old(wallets.AllBalanced()) && (wallet.id in old(wallets.docs) ==> old(wallets.docs)[wallet.id] == wallet.data)
               && (forall x :: x in wallet.data.expenses ==> x.id != newId)) ==> wallets.AllBalanced()
    {
      error := "";
      if newExpense.amount.Blank? || newExpense.description == "" {
        error := FieldsRequired;
        return;
      }
      var e := NewSharedExpense(newExpense, newId, now);
      var r := wallets.AddExpense(wallet.id, wallet.data, e, backend);
      if r.Failed? {
        error := AddFailed(r.error);
        return;
      }
      success := Added;
      openExpenseDialog := false;
      newExpense := FreshForm(email);
    }

    /** handleDeleteExpense; `confirmed` is the answer to the confirmation
        prompt. The error is not cleared first. */
    method HandleDeleteExpense(e: SharedExpense, confirmed: bool, backend: Outcome)
      modifies this, wallets
      ensures !confirmed ==> View() == old(View()) && wallets.docs == old(wallets.docs)
      ensures confirmed ==>
                var ok := backend.Succeeded? && wallet.id in old(wallets.docs);
                (ok ==> wallets.docs == old(wallets.docs)[wallet.id := AfterDelete(old(wallets.docs)[wallet.id], wallet.data, e)]
                        && View() == old(View()).(success := Removed))
                && (backend.Failed? ==> View() == old(View()).(error := DeleteFailed(backend.error))
                                        && wallets.docs == old(wallets.docs))
                && (backend.Succeeded? && !ok ==> View() == old(View()).(error := DeleteFailed(MissingDocument(wallet.id)))
                                                   && wallets.docs == old(wallets.docs))
      // the ledger invariant survives deleting an expense listed exactly once
      ensures (old(wallets.AllBalanced()) && (wallet.id in old(wallets.docs) ==> old(wallets.docs)[wallet.id] == wallet.data)
               && Count(wallet.data.expenses, e) == 1) ==> wallets.AllBalanced()
    {
      if !confirmed {
        return;
      }
      var r := wallets.RemoveExpense(wallet.id, wallet.data, e, backend);
      if r.Failed? {
        error := DeleteFailed(r.error);
        return;
      }
      success := Removed;
    }
  }
}
