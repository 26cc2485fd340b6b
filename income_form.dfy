/** The stand-alone income form with its add-category and manage-categories
    dialogs, working on the store's income list and income categories. */
module IncomeFormPage {
  import opened Common
  import opened Records
  import opened ExpenseStore

  /** The form's own state fields. */
  datatype IncomeView = IncomeView(
    entry: EntryForm,
    openDialog: bool,
    openManageDialog: bool,
    newCategory: string,
    error: string)

  /** The income categories an as-written delete leaves and the ones the
      intended delete leaves differ whenever the category document lists the
      name: the as-written handler loses every such delete. */
  lemma DeleteIsLost(s: StoreState, category: string)
    requires s.currentUser.Some? && s.currentUser.value in s.categoryDocs
    requires category in s.categoryDocs[s.currentUser.value].incomeCategories
    ensures WithoutIncomeCategory(s, category) != s
    ensures category !in WithoutIncomeCategory(s, category).incomeCategories
  {
    var uid := s.currentUser.value;
    assert category !in WithoutIncomeCategory(s, category).categoryDocs[uid].incomeCategories;
  }

  class IncomeForm {
    const store: Store
    var entry: EntryForm
    var openDialog: bool
    var openManageDialog: bool
    var newCategory: string
    /** Never set by any handler. */
    var error: string

    function View(): IncomeView
      reads this
    {
      IncomeView(entry, openDialog, openManageDialog, newCategory, error)
    }

    constructor (s: Store, today: Date)
      ensures store == s
      ensures View() == IncomeView(EmptyEntry(today), false, false, "", "")
    {
      store := s;
      entry := EmptyEntry(today);
      openDialog := false;
      openManageDialog := false;
      newCategory := "";
      error := "";
    }

    /** handleSubmit: an unfilled form is ignored without a message; a filled
        one goes to addIncome, whose failure is only logged. Only a success
        empties the form. */
    method HandleSubmit(backend: Outcome, newId: string, today: Date)
      modifies this, store
      ensures (!Filled(old(entry)) || old(store.currentUser).None? || backend.Failed?) ==>
                View() == old(View()) && store.State() == old(store.State())
      ensures Filled(old(entry)) && old(store.currentUser).Some? && backend.Succeeded? ==>
                View() == old(View()).(entry := EmptyEntry(today))
                && store.State() == old(store.State()).(incomes := old(store.incomes)
                                                         + [NewRecord(DraftOf(old(entry)), old(store.currentUser).value, newId)])
      // the store receives only complete entries
      ensures |store.incomes| != |old(store.incomes)| ==> Filled(old(entry))
    {
      if !Filled(entry) {
        return;
      }
      var added := store.AddIncome(DraftOf(entry), backend, newId);
      if added.Err? {
        return;
      }
      entry := EmptyEntry(today);
    }

    /** handleAddCategory: a non-blank name is added, trimmed, without
        waiting for the store; the field is cleared and the dialog closed
        whatever the outcome. */
    method HandleAddCategory(backend: Outcome)
      modifies this, store
      ensures Trim(old(newCategory)) == "" ==> View() == old(View()) && store.State() == old(store.State())
      ensures Trim(old(newCategory)) != "" ==> View() == old(View()).(newCategory := "", openDialog := false)
      ensures Trim(old(newCategory)) != "" && (old(store.currentUser).None? || backend.Failed?) ==>
                store.State() == old(store.State())
      ensures Trim(old(newCategory)) != "" && old(store.currentUser).Some? && backend.Succeeded? ==>
                store.State() == WithIncomeCategory(old(store.State()), Trim(old(newCategory)))
    {
      var name := Trim(newCategory);
      if name == "" {
        return;
      }
      var r := store.AddIncomeCategory(name, backend);
      newCategory := "";
      openDialog := false;
    }

    /** handleDeleteCategory as written: it calls `deleteIncomeCategory`,
        which the store does not provide, so the call throws before anything
        changes. */
    method HandleDeleteCategory(category: string)
      ensures View() == old(View()) && store.State() == old(store.State())
    {
    }

    /** handleDeleteCategory as evidently intended: the store's
        removeIncomeCategory, whose failure is only logged. */
    method HandleDeleteCategoryIntended(category: string, backend: Outcome)
      modifies store
      ensures (old(store.currentUser).None? || backend.Failed?) ==> store.State() == old(store.State())
      ensures old(store.currentUser).Some? && backend.Succeeded? ==>
                store.State() == WithoutIncomeCategory(old(store.State()), category)
                && (old(store.currentUser).value in old(store.categoryDocs) ==> category !in store.incomeCategories)
    {
      var r := store.RemoveIncomeCategory(category, backend);
    }
  }
}
