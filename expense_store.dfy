/** The per-user store behind every view: expenses, incomes, budgets and the
    two category lists, held as local state and changed only after the backend
    call for the operation has succeeded. */
module ExpenseStore {
  import opened Common
  import opened Records

  /** The backend's `userCategories` document of one user. A list field the
      document lacks reads as the empty list, as the store's `|| []` does. */
  datatype CategoryDoc = CategoryDoc(expenseCategories: seq<string>, incomeCategories: seq<string>)

  /** Everything the store holds, as one value (for stating what an operation changes). */
  datatype StoreState = StoreState(
    currentUser: Option<string>,
    expenses: seq<Transaction>,
    incomes: seq<Transaction>,
    budgets: seq<Budget>,
    expenseCategories: seq<string>,
    incomeCategories: seq<string>,
    categoryDocs: map<string, CategoryDoc>)

  const NotAuthenticated := Error("", "User not authenticated")

  /** The categories a new user starts with. */
  function DefaultExpenseCategories(): (r: seq<string>)
    ensures |r| == 15 && r[|r| - 1] == "Other"
  {
    ["Food & Dining", "Transportation", "Housing", "Utilities", "Healthcare",
     "Entertainment", "Shopping", "Education", "Personal Care", "Travel",
     "Insurance", "Savings", "Investments", "Gifts & Donations", "Other"]
  }

  function DefaultIncomeCategories(): (r: seq<string>)
    ensures |r| == 11 && r[|r| - 1] == "Other"
  {
    ["Salary", "Freelance", "Business", "Investments", "Rental Income",
     "Interest", "Dividends", "Bonus", "Commission", "Gifts", "Other"]
  }

  /** The record local state receives for a stored draft: the draft's fields,
      the owner's id and the id the backend assigned. */
  function NewRecord(d: Draft, uid: string, id: string): (t: Transaction)
    ensures Draft(t.amount, t.category, t.description, t.date) == d
    ensures t.id == id && t.userId == uid
  {
    Transaction(id, uid, d.amount, d.category, d.description, d.date)
  }

  function NewBudget(d: BudgetDraft, uid: string, id: string): (b: Budget)
    ensures BudgetDraft(b.category, b.amount, b.period) == d
    ensures b.id == id && b.userId == Some(uid)
  {
    Budget(id, Some(uid), d.category, d.amount, d.period)
  }

  /** `list.filter(c => c !== name)` */
  function WithoutName(names: seq<string>, name: string): (r: seq<string>)
    ensures forall c :: c in r <==> c in names && c != name
  {
    Filter(c => c != name, names)
  }

  /** Adding a record and then removing its id leaves the list as it was,
      provided no earlier record carried that id. */
  lemma AddThenRemoveRestores(ts: seq<Transaction>, t: Transaction)
    requires forall u :: u in ts ==> u.id != t.id
    ensures WithoutId(ts + [t], t.id) == ts
  {
    WithoutIdAppend(ts, [t], t.id);
    WithoutIdOfAbsent(ts, t.id);
    assert WithoutId([t], t.id) == [] + WithoutId([], t.id);
  }

  lemma {:induction false} WithoutIdOfAbsent(ts: seq<Transaction>, id: string)
    requires forall u :: u in ts ==> u.id != id
    ensures WithoutId(ts, id) == ts
  {
    if ts != [] {
      WithoutIdOfAbsent(ts[1..], id);
    }
  }

  /** The budgets after an update are the budgets with another id, plus the
      edited budget exactly when some budget had its id. */
  lemma ReplaceBudgetMembers(bs: seq<Budget>, edited: Budget)
    ensures forall b :: b in ReplaceBudget(bs, edited) <==>
              (b in bs && b.id != edited.id) || (b == edited && exists x :: x in bs && x.id == edited.id)
  {
    var r := ReplaceBudget(bs, edited);
    forall b | b in r
      ensures (b in bs && b.id != edited.id) || (b == edited && exists x :: x in bs && x.id == edited.id)
    {
      var i :| 0 <= i < |r| && r[i] == b;
      assert bs[i] in bs;
    }
    forall b | (b in bs && b.id != edited.id) || (b == edited && exists x :: x in bs && x.id == edited.id)
      ensures b in r
    {
      if b in bs && b.id != edited.id {
        var i :| 0 <= i < |bs| && bs[i] == b;
        assert r[i] == b;
      } else {
        var x :| x in bs && x.id == edited.id;
        var i :| 0 <= i < |bs| && bs[i] == x;
        assert r[i] == edited;
      }
    }
  }

  /** The store after addExpenseCategory succeeded: the name is appended to
      the list read from the user's category document, with no duplicate
      check; a user without a document gets one whose expense list is just the
      name (and whose income list is the local one). */
  function WithExpenseCategory(s: StoreState, name: string): StoreState
    requires s.currentUser.Some?
  {
    var uid := s.currentUser.value;
    var updated := if uid in s.categoryDocs then s.categoryDocs[uid].expenseCategories + [name] else [name];
    var doc := if uid in s.categoryDocs then s.categoryDocs[uid].(expenseCategories := updated)
               else CategoryDoc(updated, s.incomeCategories);
    s.(expenseCategories := updated, categoryDocs := s.categoryDocs[uid := doc])
  }

  /** The store after addIncomeCategory succeeded. */
  function WithIncomeCategory(s: StoreState, name: string): StoreState
    requires s.currentUser.Some?
  {
    var uid := s.currentUser.value;
    var updated := if uid in s.categoryDocs then s.categoryDocs[uid].incomeCategories + [name] else [name];
    var doc := if uid in s.categoryDocs then s.categoryDocs[uid].(incomeCategories := updated)
               else CategoryDoc(s.expenseCategories, updated);
    s.(incomeCategories := updated, categoryDocs := s.categoryDocs[uid := doc])
  }

  /** The store after removeExpenseCategory succeeded: every occurrence of the
      name goes, "Other" included; without a category document nothing
      changes. */
  function WithoutExpenseCategory(s: StoreState, name: string): StoreState
    requires s.currentUser.Some?
  {
    var uid := s.currentUser.value;
    if uid !in s.categoryDocs then s
    else
      var updated := WithoutName(s.categoryDocs[uid].expenseCategories, name);
      s.(expenseCategories := updated, categoryDocs := s.categoryDocs[uid := s.categoryDocs[uid].(expenseCategories := updated)])
  }

  /** The store after removeIncomeCategory succeeded. */
  function WithoutIncomeCategory(s: StoreState, name: string): StoreState
    requires s.currentUser.Some?
  {
    var uid := s.currentUser.value;
    if uid !in s.categoryDocs then s
    else
      var updated := WithoutName(s.categoryDocs[uid].incomeCategories, name);
      s.(incomeCategories := updated, categoryDocs := s.categoryDocs[uid := s.categoryDocs[uid].(incomeCategories := updated)])
  }

  /** Adding a category appends it after the names the user's document
      holds and touches no record list; removing it again leaves none of
      that name and every other name of the document. */
  lemma CategoryAddThenRemove(s: StoreState, name: string)
    requires s.currentUser.Some?
    ensures var t := WithExpenseCategory(s, name);
            var before := if s.currentUser.value in s.categoryDocs then s.categoryDocs[s.currentUser.value].expenseCategories else [];
            t.expenseCategories == before + [name]
            && t.expenses == s.expenses && t.incomes == s.incomes && t.budgets == s.budgets
            && t.incomeCategories == s.incomeCategories && t.currentUser == s.currentUser
    ensures var u := WithoutExpenseCategory(WithExpenseCategory(s, name), name);
            var before := if s.currentUser.value in s.categoryDocs then s.categoryDocs[s.currentUser.value].expenseCategories else [];
            name !in u.expenseCategories
            && forall c :: c != name ==> (c in u.expenseCategories <==> c in before)
  {
  }

  class Store {
    var currentUser: Option<string>
    var expenses: seq<Transaction>
    var incomes: seq<Transaction>
    var budgets: seq<Budget>
    var expenseCategories: seq<string>
    var incomeCategories: seq<string>
    /** The backend's category documents, by user id. */
    var categoryDocs: map<string, CategoryDoc>

    function State(): StoreState
      reads this
    {
      StoreState(currentUser, expenses, incomes, budgets, expenseCategories, incomeCategories, categoryDocs)
    }

    constructor (docs: map<string, CategoryDoc>)
      ensures State() == StoreState(None, [], [], [], [], [], docs)
    {
      currentUser := None;
      expenses, incomes, budgets := [], [], [];
      expenseCategories, incomeCategories := [], [];
      categoryDocs := docs;
    }

    /** The effect run when the signed-in user becomes null: the three record
        lists are cleared, the category lists are kept. */
    method SignOut()
      modifies this
      ensures State() == old(State()).(currentUser := None, expenses := [], incomes := [], budgets := [])
    {
      currentUser := None;
      expenses, incomes, budgets := [], [], [];
    }

    /** The effect run when a user signs in (loadUserData). The backend calls
        are, in order: the expense query, the income query, the budget query,
        reading the category document and, for a user without one, writing the
        defaults. `callsSucceeding` of them succeed before the first failure,
        which is only logged; what was set before it stays set. */
    method SignIn(uid: string, expenseDocs: seq<Transaction>, incomeDocs: seq<Transaction>,
                  budgetDocs: seq<Budget>, callsSucceeding: nat)
      modifies this
      ensures currentUser == Some(uid)
      ensures expenses == if callsSucceeding >= 1 then expenseDocs else old(expenses)
      ensures incomes == if callsSucceeding >= 2 then incomeDocs else old(incomes)
      ensures budgets == if callsSucceeding >= 3 then budgetDocs else old(budgets)
      ensures callsSucceeding >= 4 && uid in old(categoryDocs) ==>
                categoryDocs == old(categoryDocs)
                && expenseCategories == old(categoryDocs)[uid].expenseCategories
                && incomeCategories == old(categoryDocs)[uid].incomeCategories
      ensures callsSucceeding >= 5 && uid !in old(categoryDocs) ==>
                categoryDocs == old(categoryDocs)[uid := CategoryDoc(DefaultExpenseCategories(), DefaultIncomeCategories())]
                && expenseCategories == DefaultExpenseCategories()
                && incomeCategories == DefaultIncomeCategories()
      ensures (callsSucceeding < 4 || (callsSucceeding == 4 && uid !in old(categoryDocs))) ==>
                categoryDocs == old(categoryDocs)
                && expenseCategories == old(expenseCategories)
                && incomeCategories == old(incomeCategories)
    {
      currentUser := Some(uid);
      if callsSucceeding < 1 { return; }
      expenses := expenseDocs;
      if callsSucceeding < 2 { return; }
      incomes := incomeDocs;
      if callsSucceeding < 3 { return; }
      budgets := budgetDocs;
      if callsSucceeding < 4 { return; }
      if uid in categoryDocs {
        expenseCategories := categoryDocs[uid].expenseCategories;
        incomeCategories := categoryDocs[uid].incomeCategories;
      } else {
        if callsSucceeding < 5 { return; }
        categoryDocs := categoryDocs[uid := CategoryDoc(DefaultExpenseCategories(), DefaultIncomeCategories())];
        expenseCategories := DefaultExpenseCategories();
        incomeCategories := DefaultIncomeCategories();
      }
    }

    /** addExpense: without a user it throws "User not authenticated"; when the
        backend write fails it rethrows; otherwise it appends exactly one record. */
    method AddExpense(d: Draft, backend: Outcome, newId: string) returns (r: Result<Transaction>)
      modifies this
      ensures old(currentUser).None? ==> r == Err(NotAuthenticated) && State() == old(State())
      ensures old(currentUser).Some? && backend.Failed? ==> r == Err(backend.error) && State() == old(State())
      ensures old(currentUser).Some? && backend.Succeeded? ==>
                r == Ok(NewRecord(d, old(currentUser).value, newId))
                && State() == old(State()).(expenses := old(expenses) + [r.value])
    {
      if currentUser.None? {
        return Err(NotAuthenticated);
      }
      if backend.Failed? {
        return Err(backend.error);
      }
      var record := NewRecord(d, currentUser.value, newId);
      expenses := expenses + [record];
      r := Ok(record);
    }

    method AddIncome(d: Draft, backend: Outcome, newId: string) returns (r: Result<Transaction>)
      modifies this
      ensures old(currentUser).None? ==> r == Err(NotAuthenticated) && State() == old(State())
      ensures old(currentUser).Some? && backend.Failed? ==> r == Err(backend.error) && State() == old(State())
      ensures old(currentUser).Some? && backend.Succeeded? ==>
                r == Ok(NewRecord(d, old(currentUser).value, newId))
                && State() == old(State()).(incomes := old(incomes) + [r.value])
    {
      if currentUser.None? {
        return Err(NotAuthenticated);
      }
      if backend.Failed? {
        return Err(backend.error);
      }
      var record := NewRecord(d, currentUser.value, newId);
      incomes := incomes + [record];
      r := Ok(record);
    }

    method AddBudget(d: BudgetDraft, backend: Outcome, newId: string) returns (r: Result<Budget>)
      modifies this
      ensures old(currentUser).None? ==> r == Err(NotAuthenticated) && State() == old(State())
      ensures old(currentUser).Some? && backend.Failed? ==> r == Err(backend.error) && State() == old(State())
      ensures old(currentUser).Some? && backend.Succeeded? ==>
                r == Ok(NewBudget(d, old(currentUser).value, newId))
                && State() == old(State()).(budgets := old(budgets) + [r.value])
    {
      if currentUser.None? {
        return Err(NotAuthenticated);
      }
      if backend.Failed? {
        return Err(backend.error);
      }
      var b := NewBudget(d, currentUser.value, newId);
      budgets := budgets + [b];
      r := Ok(b);
    }

    /** updateBudget: every budget whose id matches is replaced by the edit;
        the length and all other budgets stay as they were. */
    method UpdateBudget(edited: Budget, backend: Outcome) returns (r: Result<Budget>)
      modifies this
      ensures old(currentUser).None? ==> r == Err(NotAuthenticated) && State() == old(State())
      ensures old(currentUser).Some? && backend.Failed? ==> r == Err(backend.error) && State() == old(State())
      ensures old(currentUser).Some? && backend.Succeeded? ==>
                r == Ok(edited) && State() == old(State()).(budgets := ReplaceBudget(old(budgets), edited))
    {
      if currentUser.None? {
        return Err(NotAuthenticated);
      }
      if backend.Failed? {
        return Err(backend.error);
      }
      budgets := ReplaceBudget(budgets, edited);
      r := Ok(edited);
    }

    /** removeExpense: throws without a user or with an empty id; otherwise,
        once the backend delete succeeded, drops every record with that id. */
    method RemoveExpense(id: string, backend: Outcome) returns (r: Outcome)
      modifies this
      ensures old(currentUser).None? || id == "" ==>
                r == Failed(Error("", "Invalid expense deletion attempt")) && State() == old(State())
      ensures old(currentUser).Some? && id != "" && backend.Failed? ==> r == backend && State() == old(State())
      ensures old(currentUser).Some? && id != "" && backend.Succeeded? ==>
                r == Succeeded && State() == old(State()).(expenses := WithoutId(old(expenses), id))
    {
      if currentUser.None? || id == "" {
        return Failed(Error("", "Invalid expense deletion attempt"));
      }
      if backend.Failed? {
        return backend;
      }
      expenses := WithoutId(expenses, id);
      r := Succeeded;
    }

    method RemoveIncome(id: string, backend: Outcome) returns (r: Outcome)
      modifies this
      ensures old(currentUser).None? || id == "" ==>
                r == Failed(Error("", "Invalid income deletion attempt")) && State() == old(State())
      ensures old(currentUser).Some? && id != "" && backend.Failed? ==> r == backend && State() == old(State())
      ensures old(currentUser).Some? && id != "" && backend.Succeeded? ==>
                r == Succeeded && State() == old(State()).(incomes := WithoutId(old(incomes), id))
    {
      if currentUser.None? || id == "" {
        return Failed(Error("", "Invalid income deletion attempt"));
      }
      if backend.Failed? {
        return backend;
      }
      incomes := WithoutId(incomes, id);
      r := Succeeded;
    }

    method RemoveBudget(id: string, backend: Outcome) returns (r: Outcome)
      modifies this
      ensures old(currentUser).None? || id == "" ==>
                r == Failed(Error("", "Invalid budget deletion attempt")) && State() == old(State())
      ensures old(currentUser).Some? && id != "" && backend.Failed? ==> r == backend && State() == old(State())
      ensures old(currentUser).Some? && id != "" && backend.Succeeded? ==>
                r == Succeeded && State() == old(State()).(budgets := BudgetsWithoutId(old(budgets), id))
    {
      if currentUser.None? || id == "" {
        return Failed(Error("", "Invalid budget deletion attempt"));
      }
      if backend.Failed? {
        return backend;
      }
      budgets := BudgetsWithoutId(budgets, id);
      r := Succeeded;
    }

    /** addExpenseCategory; the effect is WithExpenseCategory. */
    method AddExpenseCategory(name: string, backend: Outcome) returns (r: Outcome)
      modifies this
      ensures old(currentUser).None? ==> r == Failed(NotAuthenticated) && State() == old(State())
      ensures old(currentUser).Some? && backend.Failed? ==> r == backend && State() == old(State())
      ensures old(currentUser).Some? && backend.Succeeded? ==>
                r == Succeeded && State() == WithExpenseCategory(old(State()), name)
    {
      if currentUser.None? {
        return Failed(NotAuthenticated);
      }
      if backend.Failed? {
        return backend;
      }
      var uid := currentUser.value;
      var updated;
      if uid in categoryDocs {
        updated := categoryDocs[uid].expenseCategories + [name];
        categoryDocs := categoryDocs[uid := categoryDocs[uid].(expenseCategories := updated)];
      } else {
        updated := [name];
        categoryDocs := categoryDocs[uid := CategoryDoc(updated, incomeCategories)];
      }
      expenseCategories := updated;
      r := Succeeded;
    }

    method AddIncomeCategory(name: string, backend: Outcome) returns (r: Outcome)
      modifies this
      ensures old(currentUser).None? ==> r == Failed(NotAuthenticated) && State() == old(State())
      ensures old(currentUser).Some? && backend.Failed? ==> r == backend && State() == old(State())
      ensures old(currentUser).Some? && backend.Succeeded? ==>
                r == Succeeded && State() == WithIncomeCategory(old(State()), name)
    {
      if currentUser.None? {
        return Failed(NotAuthenticated);
      }
      if backend.Failed? {
        return backend;
      }
      var uid := currentUser.value;
      var updated;
      if uid in categoryDocs {
        updated := categoryDocs[uid].incomeCategories + [name];
        categoryDocs := categoryDocs[uid := categoryDocs[uid].(incomeCategories := updated)];
      } else {
        updated := [name];
        categoryDocs := categoryDocs[uid := CategoryDoc(expenseCategories, updated)];
      }
      incomeCategories := updated;
      r := Succeeded;
    }

    /** removeExpenseCategory; the effect is WithoutExpenseCategory. */
    method RemoveExpenseCategory(name: string, backend: Outcome) returns (r: Outcome)
      modifies this
      ensures old(currentUser).None? ==> r == Failed(NotAuthenticated) && State() == old(State())
      ensures old(currentUser).Some? && backend.Failed? ==> r == backend && State() == old(State())
      ensures old(currentUser).Some? && backend.Succeeded? ==>
                r == Succeeded && State() == WithoutExpenseCategory(old(State()), name)
    {
      if currentUser.None? {
        return Failed(NotAuthenticated);
      }
      if backend.Failed? {
        return backend;
      }
      var uid := currentUser.value;
      if uid in categoryDocs {
        var updated := WithoutName(categoryDocs[uid].expenseCategories, name);
        categoryDocs := categoryDocs[uid := categoryDocs[uid].(expenseCategories := updated)];
        expenseCategories := updated;
      }
      r := Succeeded;
    }

    method RemoveIncomeCategory(name: string, backend: Outcome) returns (r: Outcome)
      modifies this
      ensures old(currentUser).None? ==> r == Failed(NotAuthenticated) && State() == old(State())
      ensures old(currentUser).Some? && backend.Failed? ==> r == backend && State() == old(State())
      ensures old(currentUser).Some? && backend.Succeeded? ==>
                r == Succeeded && State() == WithoutIncomeCategory(old(State()), name)
    {
      if currentUser.None? {
        return Failed(NotAuthenticated);
      }
      if backend.Failed? {
        return backend;
      }
      var uid := currentUser.value;
      if uid in categoryDocs {
        var updated := WithoutName(categoryDocs[uid].incomeCategories, name);
        categoryDocs := categoryDocs[uid := categoryDocs[uid].(incomeCategories := updated)];
        incomeCategories := updated;
      }
      r := Succeeded;
    }
  }

  /** Removing a category name leaves no occurrence of it and keeps every other
      name as often as it occurred; in particular "Other" gets no protection. */
  lemma RemoveCategoryRemovesAll(names: seq<string>, name: string, other: string)
    ensures name !in WithoutName(names, name)
    ensures other != name ==> multiset(WithoutName(names, name))[other] == multiset(names)[other]
    ensures "Other" !in WithoutName(names, "Other")
  {
    FilterCounts(c => c != name, names, other);
  }
}
