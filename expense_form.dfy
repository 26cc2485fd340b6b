/** The stand-alone expense form with its add-category and manage-categories
    dialogs, working on the store's expense list and expense categories. */
module ExpenseFormPage {
  import opened Common
  import opened Records
  import opened ExpenseStore

  const FillAllFields := "Please fill in all fields"
  const AddFallback := "Failed to add expense. Please try again."
  const CategoryAddFailed := "Failed to add category. Please try again."
  const CategoryDeleteFailed := "Failed to delete category. Please try again."

  /** `error.message || fallback` */
  function MessageOr(e: Error, fallback: string): (m: string)
    ensures e.message != "" ==> m == e.message
    ensures e.message == "" ==> m == fallback
  {
    if e.message != "" then e.message else fallback
  }

  /** The form's own state fields. `openDialog` is the add-category dialog,
      `openManageDialog` the manage-categories dialog. */
  datatype FormView = FormView(
    entry: EntryForm,
    openDialog: bool,
    openManageDialog: bool,
    newCategory: string,
    error: string)

  class ExpenseForm {
    const store: Store
    var entry: EntryForm
    var openDialog: bool
    var openManageDialog: bool
    var newCategory: string
    var error: string

    function View(): FormView
      reads this
    {
      FormView(entry, openDialog, openManageDialog, newCategory, error)
    }

    constructor (s: Store, today: Date)
      ensures store == s
      ensures View() == FormView(EmptyEntry(today), false, false, "", "")
    {
      store := s;
      entry := EmptyEntry(today);
      openDialog := false;
      openManageDialog := false;
      newCategory := "";
      error := "";
    }

    /** handleSubmit: an unfilled form is refused with an error and no store
        call; otherwise the entry goes to addExpense. Its error message (or a
        fallback when it has none) is shown on failure; on success the form
        is emptied, the error cleared and the add-category dialog closed. */
    method HandleSubmit(backend: Outcome, newId: string, today: Date)
      modifies this, store
      ensures !Filled(old(entry)) ==>
                View() == old(View()).(error := FillAllFields)
                && store.State() == old(store.State())
      ensures Filled(old(entry)) && old(store.currentUser).None? ==>
                View() == old(View()).(error := NotAuthenticated.message)
                && store.State() == old(store.State())
      ensures Filled(old(entry)) && old(store.currentUser).Some? && backend.Failed? ==>
                View() == old(View()).(error := MessageOr(backend.error, AddFallback))
                && store.State() == old(store.State())
      ensures Filled(old(entry)) && old(store.currentUser).Some? && backend.Succeeded? ==>
                View() == old(View()).(entry := EmptyEntry(today), error := "", openDialog := false)
                && store.State() == old(store.State()).(expenses := old(store.expenses)
                                                         + [NewRecord(DraftOf(old(entry)), old(store.currentUser).value, newId)])
      // the store receives only complete entries
      ensures |store.expenses| != |old(store.expenses)| ==> Filled(old(entry))
    {
      error := "";
      if !Filled(entry) {
        error := FillAllFields;
        return;
      }
      var added := store.AddExpense(DraftOf(entry), backend, newId);
      if added.Err? {
        error := MessageOr(added.error, AddFallback);
        return;
      }
      entry := EmptyEntry(today);
      error := "";
      openDialog := false;
    }

    /** handleAddCategory: a blank name does nothing; otherwise the trimmed
        name is added to the expense categories, and on success the field is
        cleared and the dialog closed. */
    method HandleAddCategory(backend: Outcome)
      modifies this, store
      ensures Trim(old(newCategory)) == "" ==> View() == old(View()) && store.State() == old(store.State())
      ensures Trim(old(newCategory)) != "" && (old(store.currentUser).None? || backend.Failed?) ==>
                View() == old(View()).(error := CategoryAddFailed) && store.State() == old(store.State())
      ensures Trim(old(newCategory)) != "" && old(store.currentUser).Some? && backend.Succeeded? ==>
                View() == old(View()).(newCategory := "", openDialog := false)
                && store.State() == WithExpenseCategory(old(store.State()), Trim(old(newCategory)))
                && store.expenseCategories[|store.expenseCategories| - 1] == Trim(old(newCategory))
    {
      var name := Trim(newCategory);
      if name == "" {
        return;
      }
      var r := store.AddExpenseCategory(name, backend);
      if r.Failed? {
        error := CategoryAddFailed;
        return;
      }
      newCategory := "";
      openDialog := false;
    }

    /** handleDeleteCategory: the name is removed from the expense
        categories; if it was the selected category, the selection is
        cleared. */
    method HandleDeleteCategory(category: string, backend: Outcome)
      modifies this, store
      ensures (old(store.currentUser).None? || backend.Failed?) ==>
                View() == old(View()).(error := CategoryDeleteFailed) && store.State() == old(store.State())
      ensures old(store.currentUser).Some? && backend.Succeeded? ==>
                store.State() == WithoutExpenseCategory(old(store.State()), category)
                && (old(entry.category) == category ==> View() == old(View()).(entry := old(entry).(category := "")))
                && (old(entry.category) != category ==> View() == old(View()))
      // after a delete the form never selects the deleted name
      ensures old(store.currentUser).Some? && backend.Succeeded? ==> entry.category != category || category == ""
    {
      var r := store.RemoveExpenseCategory(category, backend);
      if r.Failed? {
        error := CategoryDeleteFailed;
        return;
      }
      if entry.category == category {
        entry := entry.(category := "");
      }
    }
  }
}
