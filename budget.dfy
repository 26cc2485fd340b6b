/** The budget page: per-budget progress over the current month or year, the
    over-budget flag, the progress bar and the "remaining" label, the spending
    per category, and the add / edit dialog with its duplicate guard. */
module BudgetPage {
  import opened Common
  import opened Records
  import opened ExpenseStore

  // ----- progress -----

  /** A JavaScript number as it comes out of a division whose divisor may be 0. */
  datatype Percent = Ratio(value: real) | PlusInfinity | MinusInfinity | NotANumber

  /** The first day of the budget's window: the first of the month for a
      "monthly" budget, the first of January for any other period. */
  function WindowStart(b: Budget, today: Date): (d: Date)
    ensures d.year == today.year && d.day == 1
    ensures d.month == if b.period == "monthly" then today.month else 1
    ensures ValidDate(today) ==> ValidDate(d) && !CalendarBefore(today, d)
  {
    if b.period == "monthly" then Date(today.year, today.month, 1) else Date(today.year, 1, 1)
  }

  /** An expense counts against a budget when it has the budget's category and
      is dated on or after the window start; there is no upper bound, and an
      undated expense never counts. */
  predicate CountsAgainst(e: Transaction, b: Budget, today: Date): (r: bool)
    ensures r ==> e.date.Some? && e.category == b.category
    ensures ValidDate(today) && e.date == Some(today) && e.category == b.category ==> r
  {
    e.date.Some? && !CalendarBefore(e.date.value, WindowStart(b, today)) && e.category == b.category
  }

  function RelevantExpenses(expenses: seq<Transaction>, b: Budget, today: Date): (r: seq<Transaction>)
    ensures forall e :: e in r <==> e in expenses && CountsAgainst(e, b, today)
  {
    if expenses == [] then []
    else (if CountsAgainst(expenses[0], b, today) then [expenses[0]] else [])
         + RelevantExpenses(expenses[1..], b, today)
  }

  lemma {:induction false} RelevantExpensesAppend(a: seq<Transaction>, c: seq<Transaction>, b: Budget, today: Date)
    ensures RelevantExpenses(a + c, b, today) == RelevantExpenses(a, b, today) + RelevantExpenses(c, b, today)
  {
    if a == [] {
      assert a + c == c;
    } else {
      assert (a + c)[1..] == a[1..] + c;
      RelevantExpensesAppend(a[1..], c, b, today);
    }
  }

  /** `(spent / amount) * 100` with JavaScript's division by zero. */
  function Progress(spent: int, amount: int): (p: Percent)
    ensures amount != 0 ==> p.Ratio? && p.value * amount as real == spent as real * 100.0
    ensures amount == 0 ==> (p == PlusInfinity <==> spent > 0) && (p == MinusInfinity <==> spent < 0)
                            && (p == NotANumber <==> spent == 0)
  {
    if amount != 0 then Ratio((spent as real / amount as real) * 100.0)
    else if spent > 0 then PlusInfinity
    else if spent < 0 then MinusInfinity
    else NotANumber
  }

  /** calculateProgress: the budget shows as over exactly when more was spent
      in its window than budgeted (a zero budget once anything was spent). */
  function CalculateProgress(b: Budget, expenses: seq<Transaction>, today: Date): (p: Percent)
    ensures b.amount != 0 ==> p.Ratio?
    ensures var spent := SumAmounts(RelevantExpenses(expenses, b, today));
            IsOverBudget(p) <==> (b.amount > 0 && spent > b.amount) || (b.amount < 0 && spent < b.amount)
                                 || (b.amount == 0 && spent > 0)
  {
    var spent := SumAmounts(RelevantExpenses(expenses, b, today));
    OverBudgetIffOverspent(spent, b.amount);
    Progress(spent, b.amount)
  }

  /** `progress > 100` in JavaScript: +Infinity is over, while NaN and
      -Infinity, which compare false, are not. */
  predicate IsOverBudget(p: Percent): (r: bool)
    ensures p == PlusInfinity ==> r
    ensures p == NotANumber || p == MinusInfinity ==> !r
    ensures p.Ratio? ==> (r <==> p.value > 100.0)
  {
    match p
    case Ratio(r) => r > 100.0
    case PlusInfinity => true
    case _ => false
  }

  /** A budget is over iff more was spent than budgeted (for a positive
      amount); a zero budget is over as soon as anything positive is spent. */
  lemma OverBudgetIffOverspent(spent: int, amount: int)
    ensures IsOverBudget(Progress(spent, amount)) <==>
              (amount > 0 && spent > amount) || (amount < 0 && spent < amount) || (amount == 0 && spent > 0)
  {
    if amount != 0 {
      var p := Progress(spent, amount);
      assert IsOverBudget(p) <==> p.value > 100.0;
      OverHundredIffOverspent(p.value, spent, amount);
    }
  }

  /** A percentage `r` of a non-zero budget passes 100 exactly when the
      spending it stands for passes a positive budget or falls under a
      negative one. */
  lemma OverHundredIffOverspent(r: real, spent: int, amount: int)
    requires amount != 0 && r * amount as real == spent as real * 100.0
    ensures r > 100.0 <==> (amount > 0 && spent > amount) || (amount < 0 && spent < amount)
  {
    assert (r - 100.0) * amount as real == (spent - amount) as real * 100.0;
    if amount > 0 {
      if r > 100.0 { ProductSign(r - 100.0, amount as real); }
      if r <= 100.0 { ProductSign(100.0 - r, amount as real); }
    } else {
      if r > 100.0 { ProductSign(r - 100.0, -amount as real); }
      if r <= 100.0 { ProductSign(100.0 - r, -amount as real); }
    }
  }

  lemma ProductSign(x: real, y: real)
    requires x >= 0.0 && y > 0.0
    ensures x * y >= 0.0 && (x > 0.0 ==> x * y > 0.0)
  {
  }

  /** `Math.min(progress, 100)`: NaN stays NaN. */
  function BarValue(p: Percent): (r: Percent)
    ensures p.Ratio? ==> r.Ratio? && r.value <= 100.0 && (r.value == p.value || r.value == 100.0)
    ensures p.Ratio? && p.value <= 100.0 ==> r == p
    ensures IsOverBudget(p) ==> r == Ratio(100.0)
  {
    match p
    case Ratio(v) => if v < 100.0 then p else Ratio(100.0)
    case PlusInfinity => Ratio(100.0)
    case _ => p
  }

  /** The text under a budget's bar: "Over Budget", or the amount left, which
      is `amount - (progress / 100) * amount` and so NaN for a zero budget. */
  datatype Label = OverBudget | Remaining(amount: real) | RemainingNaN

  /** A positive budget that is not over never shows a negative remainder. */
  function RemainingLabel(amount: int, p: Percent): (l: Label)
    ensures l == OverBudget <==> IsOverBudget(p)
    ensures l == RemainingNaN <==> p == NotANumber || p == MinusInfinity
    ensures amount > 0 && l.Remaining? ==> l.amount >= 0.0
  {
    if IsOverBudget(p) then OverBudget
    else match p
      case Ratio(r) =>
        var left := amount as real - (r / 100.0) * amount as real;
        assert amount > 0 ==> left >= 0.0 by {
          if amount > 0 {
            ProductSign(1.0 - r / 100.0, amount as real);
          }
        }
        Remaining(left)
      case _ => RemainingNaN
  }

  /** The label shows the amount budgeted minus the amount spent whenever the
      budget is not over, and "Over Budget" exactly when it is. */
  lemma RemainingIsAmountMinusSpent(spent: int, amount: int)
    requires amount != 0
    ensures var shown := RemainingLabel(amount, Progress(spent, amount));
            (shown == OverBudget <==> IsOverBudget(Progress(spent, amount)))
            && (shown != OverBudget ==> shown == Remaining(amount as real - spent as real))
  {
    var r := Progress(spent, amount).value;
    assert r * amount as real == spent as real * 100.0;
    assert (r / 100.0) * amount as real == (r * amount as real) / 100.0;
    assert (r / 100.0) * amount as real == spent as real;
    assert Progress(spent, amount) == Ratio(r);
  }

  /** A zero budget reads "Over Budget" once anything was spent and "$NaN
      Remaining" otherwise. */
  lemma ZeroBudgetLabel(spent: int)
    ensures RemainingLabel(0, Progress(spent, 0)) == if spent > 0 then OverBudget else RemainingNaN
  {
  }

  /** For a positive budget, an expense that counts against it never lowers its
      progress (if its amount is not negative), and one that does not count
      leaves the progress unchanged. */
  lemma ProgressMonotone(expenses: seq<Transaction>, e: Transaction, b: Budget, today: Date)
    requires b.amount > 0
    ensures var before := CalculateProgress(b, expenses, today);
            var after := CalculateProgress(b, expenses + [e], today);
            (CountsAgainst(e, b, today) && e.amount >= 0 ==> after.value >= before.value)
            && (!CountsAgainst(e, b, today) ==> after == before)
  {
    RelevantExpensesAppend(expenses, [e], b, today);
    assert RelevantExpenses([e], b, today) == (if CountsAgainst(e, b, today) then [e] else []) + RelevantExpenses([], b, today);
    var rel := RelevantExpenses(expenses, b, today);
    SumAmountsAppend(rel, RelevantExpenses([e], b, today));
    var s0 := SumAmounts(rel);
    if CountsAgainst(e, b, today) {
      assert SumAmounts([e]) == e.amount + SumAmounts([]);
      assert CalculateProgress(b, expenses, today) == Progress(s0, b.amount);
      assert CalculateProgress(b, expenses + [e], today) == Progress(s0 + e.amount, b.amount);
      if e.amount >= 0 {
        ProgressGrows(s0, e.amount, b.amount);
      }
    } else {
      assert RelevantExpenses([e], b, today) == [];
      assert rel + [] == rel;
    }
  }

  /** Spending more against a positive budget never lowers its progress. */
  lemma ProgressGrows(spent: int, more: int, amount: int)
    requires amount > 0 && more >= 0
    ensures Progress(spent + more, amount).value >= Progress(spent, amount).value
  {
    var before := Progress(spent, amount).value;
    var after := Progress(spent + more, amount).value;
    assert before * amount as real == spent as real * 100.0;
    assert after * amount as real == (spent + more) as real * 100.0;
    assert after * amount as real >= before * amount as real;
  }

  /** categoryExpenses: every listed category mapped to the sum of its
      expenses' amounts. */
  function CategoryExpenses(categories: seq<string>, expenses: seq<Transaction>): (m: map<string, int>)
    ensures forall c :: c in m <==> c in categories
    ensures forall c :: c in m ==> m[c] == SumAmounts(OfCategory(expenses, c))
  {
    if categories == [] then map[]
    else
      var last := categories[|categories| - 1];
      CategoryExpenses(categories[..|categories| - 1], expenses)[last := SumAmounts(OfCategory(expenses, last))]
  }

  /** A listed category nobody spent on shows 0. */
  lemma UnusedCategoryIsZero(categories: seq<string>, expenses: seq<Transaction>, c: string)
    requires c in categories
    requires forall e :: e in expenses ==> e.category != c
    ensures CategoryExpenses(categories, expenses)[c] == 0
  {
    var r := OfCategory(expenses, c);
    assert forall k :: 0 <= k < |r| ==> r[k] in r;
  }

  // ----- the duplicate guard -----

  /** `budgets.find(b => b.category === category && b.period === period)` */
  function FindSameSlot(bs: seq<Budget>, category: string, period: string): (r: Option<Budget>)
    ensures r.Some? ==> r.value in bs && r.value.category == category && r.value.period == period
    ensures r.Some? ==> exists i :: 0 <= i < |bs| && bs[i] == r.value
                          && forall j :: 0 <= j < i ==> !(bs[j].category == category && bs[j].period == period)
    ensures r.None? <==> forall b :: b in bs ==> !(b.category == category && b.period == period)
  {
    if bs == [] then None
    else if bs[0].category == category && bs[0].period == period then Some(bs[0])
    else
      var r := FindSameSlot(bs[1..], category, period);
      if r.Some? then
        ghost var i :| 0 <= i < |bs| - 1 && bs[1..][i] == r.value
                       && forall j :: 0 <= j < i ==> !(bs[1..][j].category == category && bs[1..][j].period == period);
        assert bs[i + 1] == r.value;
        r
      else r
  }

  /** No two budgets share a category and period. */
  predicate SlotsUnique(bs: seq<Budget>) {
    forall i, j :: 0 <= i < j < |bs| ==> !(bs[i].category == bs[j].category && bs[i].period == bs[j].period)
  }

  /** Adding only budgets whose slot the guard found free keeps every
      (category, period) slot taken at most once. */
  lemma GuardedAddKeepsSlotsUnique(bs: seq<Budget>, b: Budget)
    requires SlotsUnique(bs)
    requires FindSameSlot(bs, b.category, b.period).None?
    ensures SlotsUnique(bs + [b])
  {
    forall i, j | 0 <= i < j < |bs + [b]|
      ensures !((bs + [b])[i].category == (bs + [b])[j].category && (bs + [b])[i].period == (bs + [b])[j].period)
    {
      if j == |bs| {
        assert bs[i] in bs;
      }
    }
  }

  /** The guard is bypassed while editing: an edit that moves a budget into a
      slot another budget holds leaves two budgets in that slot. */
  lemma EditCanShareSlot()
    ensures var food := Budget("a", Some("u"), "Food", 100, "monthly");
            var rent := Budget("b", Some("u"), "Rent", 500, "monthly");
            SlotsUnique([food, rent])
            && !SlotsUnique(ReplaceBudget([food, rent], Budget("b", None, "Food", 500, "monthly")))
  {
    var food := Budget("a", Some("u"), "Food", 100, "monthly");
    var rent := Budget("b", Some("u"), "Rent", 500, "monthly");
    var r := ReplaceBudget([food, rent], Budget("b", None, "Food", 500, "monthly"));
    assert r[0] == food;
    assert r[1] == Budget("b", None, "Food", 500, "monthly");
  }

  // ----- the dialog -----

  /** The budget form. `userId` is carried along when the form was filled
      from a stored budget by the edit icon, which copies the whole record. */
  datatype BudgetForm = BudgetForm(category: string, amount: AmountField, period: string, userId: Option<string>)

  function EmptyForm(): BudgetForm {
    BudgetForm("", Blank, "monthly", None)
  }

  /** The message the dialog shows for a failed save. */
  function SaveError(e: Error): (m: string)
    ensures m != ""
    ensures e.message != "" ==> m == e.message
  {
    if e.message != "" then e.message else "Failed to save budget"
  }

  class BudgetDialog {
    const store: Store
    var openDialog: bool
    var editingBudget: Option<Budget>
    var newBudget: BudgetForm
    var duplicateDialog: bool
    var existingBudget: Option<Budget>
    var error: string

    constructor (s: Store)
      ensures store == s && !openDialog && editingBudget.None? && newBudget == EmptyForm()
      ensures !duplicateDialog && existingBudget.None? && error == ""
    {
      store := s;
      openDialog := false;
      editingBudget := None;
      newBudget := EmptyForm();
      duplicateDialog := false;
      existingBudget := None;
      error := "";
    }

    /** handleCloseDialog: closes the dialog, forgets the budget being edited,
        empties the form and clears the error. */
    method HandleCloseDialog()
      modifies this
      ensures !openDialog && editingBudget.None? && newBudget == EmptyForm() && error == ""
      ensures duplicateDialog == old(duplicateDialog) && existingBudget == old(existingBudget)
    {
      openDialog := false;
      editingBudget := None;
      newBudget := EmptyForm();
      error := "";
    }

    /** The "Add New Budget" button: a fresh form, nothing being edited; the
        error is left as it was. */
    method OpenNewBudget()
      modifies this
      ensures openDialog && editingBudget.None? && newBudget == EmptyForm()
      ensures error == old(error) && duplicateDialog == old(duplicateDialog) && existingBudget == old(existingBudget)
    {
      editingBudget := None;
      newBudget := EmptyForm();
      openDialog := true;
    }

    /** The edit icon on a budget card: the whole budget goes into the form. A
        numeric amount of 0 is falsy, so it reads as a blank field. */
    method HandleEditClick(b: Budget)
      modifies this
      ensures openDialog && editingBudget == Some(b)
      ensures newBudget == BudgetForm(b.category, if b.amount == 0 then Blank else Entered(b.amount), b.period, b.userId)
      ensures error == old(error) && duplicateDialog == old(duplicateDialog) && existingBudget == old(existingBudget)
    {
      editingBudget := Some(b);
      newBudget := BudgetForm(b.category, if b.amount == 0 then Blank else Entered(b.amount), b.period, b.userId);
      openDialog := true;
    }

    /** handleEditExisting, from the duplicate dialog: the existing budget
        becomes the one being edited and fills the form (its amount as text,
        so even 0 is filled in). */
    method HandleEditExisting()
      requires existingBudget.Some?
      modifies this
      ensures editingBudget == old(existingBudget)
      ensures newBudget == BudgetForm(old(existingBudget).value.category, Entered(old(existingBudget).value.amount),
                                      old(existingBudget).value.period, None)
      ensures !duplicateDialog && openDialog && existingBudget == old(existingBudget) && error == old(error)
    {
      var e := existingBudget.value;
      editingBudget := existingBudget;
      newBudget := BudgetForm(e.category, Entered(e.amount), e.period, None);
      duplicateDialog := false;
      openDialog := true;
    }

    /** The duplicate dialog's Cancel button. */
    method CancelDuplicate()
      modifies this
      ensures !duplicateDialog
      ensures openDialog == old(openDialog) && editingBudget == old(editingBudget) && newBudget == old(newBudget)
      ensures existingBudget == old(existingBudget) && error == old(error)
    {
      duplicateDialog := false;
    }

    /** handleAddBudget. `backend` is the outcome of the store's write and
        `newId` the id the backend assigns to a new budget. */
    method HandleAddBudget(backend: Outcome, newId: string)
      modifies this, store
      // a form with an empty field: an error and no store call
      ensures old(newBudget.category == "" || newBudget.amount.Blank? || newBudget.period == "") ==>
                error == "Please fill in all fields" && store.State() == old(store.State())
                && openDialog == old(openDialog) && newBudget == old(newBudget)
                && editingBudget == old(editingBudget) && duplicateDialog == old(duplicateDialog)
                && existingBudget == old(existingBudget)
      // a second budget for a taken slot: the duplicate dialog, and no store call
      ensures old(newBudget.category != "" && newBudget.amount.Entered? && newBudget.period != "")
              && old(editingBudget).None?
              && old(FindSameSlot(store.budgets, newBudget.category, newBudget.period)).Some? ==>
                existingBudget == old(FindSameSlot(store.budgets, newBudget.category, newBudget.period))
                && duplicateDialog && store.State() == old(store.State())
                && openDialog == old(openDialog) && newBudget == old(newBudget) && error == old(error)
                && editingBudget == old(editingBudget)
      // otherwise the store is asked to update (when editing) or to add; a
      // signed-in user and a successful write save the budget and close the
      // dialog, anything else shows the error and keeps the form
      ensures old(newBudget.category != "" && newBudget.amount.Entered? && newBudget.period != "")
              && (old(editingBudget).Some? || old(FindSameSlot(store.budgets, newBudget.category, newBudget.period)).None?) ==>
                var f := old(newBudget);
                var saved := old(store.currentUser).Some? && backend.Succeeded?;
                (saved && old(editingBudget).Some? ==>
                   store.State() == old(store.State()).(budgets := ReplaceBudget(old(store.budgets),
                     Budget(old(editingBudget).value.id, f.userId, f.category, f.amount.cents, f.period))))
                && (saved && old(editingBudget).None? ==>
                      store.State() == old(store.State()).(budgets := old(store.budgets)
                        + [NewBudget(BudgetDraft(f.category, f.amount.cents, f.period), old(store.currentUser).value, newId)]))
                && (saved ==> !openDialog && editingBudget.None? && newBudget == EmptyForm() && error == "")
                && (!saved ==> store.State() == old(store.State()) && error != "" && newBudget == old(newBudget)
                               && openDialog == old(openDialog) && editingBudget == old(editingBudget))
                && (old(store.currentUser).None? ==> error == "User not authenticated")
                && (old(store.currentUser).Some? && backend.Failed? ==> error == SaveError(backend.error))
                && duplicateDialog == old(duplicateDialog) && existingBudget == old(existingBudget)
    {
      if newBudget.category == "" || newBudget.amount.Blank? || newBudget.period == "" {
        error := "Please fill in all fields";
        return;
      }
      var f := newBudget;
      var existing := FindSameSlot(store.budgets, f.category, f.period);
      if existing.Some? && editingBudget.None? {
        existingBudget := existing;
        duplicateDialog := true;
        return;
      }
      if editingBudget.Some? {
        var r := store.UpdateBudget(Budget(editingBudget.value.id, f.userId, f.category, f.amount.cents, f.period), backend);
        if r.Err? {
          error := SaveError(r.error);
          return;
        }
      } else {
        var r := store.AddBudget(BudgetDraft(f.category, f.amount.cents, f.period), backend, newId);
        if r.Err? {
          error := SaveError(r.error);
          return;
        }
      }
      HandleCloseDialog();
    }
  }
}
