/** The dashboard: the totals and balance over all records, the quick-add
    dialog for an expense or an income, and the category dialog that adds or
    removes a name in the list of the selected type. */
module Dashboard {
  import opened Common
  import opened Records
  import opened ExpenseStore

  /** Income total minus expense total: with no negative amounts recorded it
      never exceeds what came in and never falls below minus what went out. */
  function Balance(expenses: seq<Transaction>, incomes: seq<Transaction>): (r: int)
    ensures (forall t :: t in expenses ==> t.amount >= 0) ==> r <= SumAmounts(incomes)
    ensures (forall t :: t in incomes ==> t.amount >= 0) ==> r >= -SumAmounts(expenses)
  {
    SumAmountsNonNegative(expenses);
    SumAmountsNonNegative(incomes);
    SumAmounts(incomes) - SumAmounts(expenses)
  }

  /** Recording an expense lowers the balance by its amount, recording an
      income raises it by its amount, and with no records the balance is 0. */
  lemma BalanceMoves(expenses: seq<Transaction>, incomes: seq<Transaction>, t: Transaction)
    ensures Balance(expenses + [t], incomes) == Balance(expenses, incomes) - t.amount
    ensures Balance(expenses, incomes + [t]) == Balance(expenses, incomes) + t.amount
    ensures Balance([], []) == 0
  {
    SumAmountsAppend(expenses, [t]);
    SumAmountsAppend(incomes, [t]);
    assert SumAmounts([t]) == t.amount + SumAmounts([]);
  }

  /** Which list the dialogs work on. */
  datatype TxType = ExpenseType | IncomeType

  /** The form as a successful add leaves it: empty fields, the first expense
      category (whatever the type) or "", and today's date. */
  function ResetForm(expenseCategories: seq<string>, today: Date): (f: EntryForm)
    ensures f.description == "" && f.amount.Blank? && f.date == Some(today)
    ensures expenseCategories != [] ==> f.category == expenseCategories[0]
    ensures expenseCategories == [] ==> f.category == ""
  {
    EntryForm("", Blank, if expenseCategories != [] then expenseCategories[0] else "", Some(today))
  }

  /** The page's own state fields. */
  datatype DashboardView = DashboardView(
    openTransactionDialog: bool,
    openCategoryDialog: bool,
    transactionType: TxType,
    newCategory: string,
    newTransaction: EntryForm)

  class DashboardPage {
    const store: Store
    var openTransactionDialog: bool
    var openCategoryDialog: bool
    var transactionType: TxType
    var newCategory: string
    var newTransaction: EntryForm

    function View(): DashboardView
      reads this
    {
      DashboardView(openTransactionDialog, openCategoryDialog, transactionType, newCategory, newTransaction)
    }

    /** The category list both dialogs show: the list of the selected type. */
    function ShownCategories(): seq<string>
      reads this, store
    {
      if transactionType == ExpenseType then store.expenseCategories else store.incomeCategories
    }

    /** The page opens on the expense type with closed dialogs; the form's
        category is the first expense category known at that moment. */
    constructor (s: Store, today: Date)
      ensures store == s
      ensures View() == DashboardView(false, false, ExpenseType, "", ResetForm(s.expenseCategories, today))
    {
      store := s;
      openTransactionDialog := false;
      openCategoryDialog := false;
      transactionType := ExpenseType;
      newCategory := "";
      newTransaction := ResetForm(s.expenseCategories, today);
    }

    /** The effect run when the expense categories change: an empty form
        category takes the first expense category, if there is one. */
    method CategoriesLoaded()
      modifies this
      ensures old(store.expenseCategories != [] && newTransaction.category == "") ==>
                View() == old(View()).(newTransaction := old(newTransaction).(category := store.expenseCategories[0]))
      ensures old(store.expenseCategories == [] || newTransaction.category != "") ==> View() == old(View())
      // a category the user already chose is never overwritten
      ensures old(newTransaction.category) != "" ==> newTransaction == old(newTransaction)
    {
      if store.expenseCategories != [] && newTransaction.category == "" {
        newTransaction := newTransaction.(category := store.expenseCategories[0]);
      }
    }

    /** The type tabs of both dialogs. */
    method SelectType(t: TxType)
      modifies this
      ensures View() == old(View()).(transactionType := t)
    {
      transactionType := t;
    }

    /** handleAddTransaction: the form goes to addExpense or addIncome by the
        selected type. A rejection from the store propagates and leaves the
        dialog and the form as they were; on success the dialog closes and
        the form is reset. */
    method HandleAddTransaction(backend: Outcome, newId: string, today: Date) returns (r: Outcome)
      requires newTransaction.amount.Entered?
      modifies this, store
      ensures old(store.currentUser).None? ==>
                r == Failed(NotAuthenticated) && View() == old(View()) && store.State() == old(store.State())
      ensures old(store.currentUser).Some? && backend.Failed? ==>
                r == backend && View() == old(View()) && store.State() == old(store.State())
      ensures old(store.currentUser).Some? && backend.Succeeded? ==>
                var t := NewRecord(DraftOf(old(newTransaction)), old(store.currentUser).value, newId);
                r == Succeeded
                && View() == old(View()).(openTransactionDialog := false,
                                          newTransaction := ResetForm(old(store.expenseCategories), today))
                && (old(transactionType) == ExpenseType ==>
                      store.State() == old(store.State()).(expenses := old(store.expenses) + [t])
                      && Balance(store.expenses, store.incomes) == old(Balance(store.expenses, store.incomes)) - t.amount)
                && (old(transactionType) == IncomeType ==>
                      store.State() == old(store.State()).(incomes := old(store.incomes) + [t])
                      && Balance(store.expenses, store.incomes) == old(Balance(store.expenses, store.incomes)) + t.amount)
    {
      var d := DraftOf(newTransaction);
      var added;
      if transactionType == ExpenseType {
        added := store.AddExpense(d, backend, newId);
      } else {
        added := store.AddIncome(d, backend, newId);
      }
      if added.Err? {
        return Failed(added.error);
      }
      BalanceMoves(old(store.expenses), old(store.incomes), added.value);
      openTransactionDialog := false;
      newTransaction := ResetForm(store.expenseCategories, today);
      r := Succeeded;
    }

    /** handleAddCategory: a blank name does nothing; otherwise the trimmed
        name goes to the list of the selected type. A store error is only
        logged, and then the typed name stays in the field. */
    method HandleAddCategory(backend: Outcome)
      modifies this, store
      ensures (Trim(old(newCategory)) == "" || old(store.currentUser).None? || backend.Failed?) ==>
                View() == old(View()) && store.State() == old(store.State())
      ensures (Trim(old(newCategory)) != "" && old(store.currentUser).Some? && backend.Succeeded?) ==>
                View() == old(View()).(newCategory := "")
                && (transactionType == ExpenseType ==>
                      store.State() == WithExpenseCategory(old(store.State()), Trim(old(newCategory))))
                && (transactionType == IncomeType ==>
                      store.State() == WithIncomeCategory(old(store.State()), Trim(old(newCategory))))
                && ShownCategories() != [] && ShownCategories()[|ShownCategories()| - 1] == Trim(old(newCategory))
    {
      var name := Trim(newCategory);
      if name == "" {
        return;
      }
      var r;
      if transactionType == ExpenseType {
        r := store.AddExpenseCategory(name, backend);
      } else {
        r := store.AddIncomeCategory(name, backend);
      }
      if r.Failed? {
        return;
      }
      newCategory := "";
    }

    /** handleDeleteCategory: the name is removed from the list of the
        selected type; a store error is only logged. */
    method HandleDeleteCategory(category: string, backend: Outcome)
      modifies store
      ensures (old(store.currentUser).None? || backend.Failed?) ==> store.State() == old(store.State())
      ensures (old(store.currentUser).Some? && backend.Succeeded?) ==>
                (transactionType == ExpenseType ==> store.State() == WithoutExpenseCategory(old(store.State()), category))
                && (transactionType == IncomeType ==> store.State() == WithoutIncomeCategory(old(store.State()), category))
                && (old(store.currentUser).value in old(store.categoryDocs) ==> category !in ShownCategories())
    {
      if transactionType == ExpenseType {
        var r := store.RemoveExpenseCategory(category, backend);
      } else {
        var r := store.RemoveIncomeCategory(category, backend);
      }
    }
  }
}
