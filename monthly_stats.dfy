/** The monthly statistics card: this month's expenses, their total and the
    category with the largest total. */
module MonthlyStats {
  import opened Common
  import opened Records
  import opened Grouping

  /** getCurrentMonthExpenses: the expenses whose month equals today's month,
      in any year; an expense without a valid date is never included. */
  function CurrentMonthExpenses(expenses: seq<Transaction>, today: Date): (r: seq<Transaction>)
    ensures forall t :: t in r <==> t in expenses && t.date.Some? && t.date.value.month == today.month
    ensures |r| <= |expenses|
  {
    if expenses == [] then []
    else
      (if expenses[0].date.Some? && expenses[0].date.value.month == today.month then [expenses[0]] else [])
      + CurrentMonthExpenses(expenses[1..], today)
  }

  /** calculateTotal, before it is formatted to two decimals: with no
      negative amounts it lies between 0 and the total of all expenses. */
  function MonthlyTotal(expenses: seq<Transaction>, today: Date): (r: int)
    ensures (forall t :: t in expenses ==> t.amount >= 0) ==> 0 <= r <= SumAmounts(expenses)
  {
    MonthSumBounded(expenses, today);
    SumAmounts(CurrentMonthExpenses(expenses, today))
  }

  lemma {:induction false} MonthSumBounded(expenses: seq<Transaction>, today: Date)
    ensures (forall t :: t in expenses ==> t.amount >= 0) ==>
              0 <= SumAmounts(CurrentMonthExpenses(expenses, today)) <= SumAmounts(expenses)
  {
    SumAmountsNonNegative(CurrentMonthExpenses(expenses, today));
    if expenses != [] {
      MonthSumBounded(expenses[1..], today);
      var head := if expenses[0].date.Some? && expenses[0].date.value.month == today.month then [expenses[0]] else [];
      SumAmountsAppend(head, CurrentMonthExpenses(expenses[1..], today));
      assert SumAmounts([expenses[0]]) == expenses[0].amount + SumAmounts([]);
      assert forall t :: t in expenses[1..] ==> t in expenses;
    }
  }

  /** An expense dated in the same month of another year counts too: the
      filter compares the month alone. */
  lemma SameMonthOtherYearCounts(t: Transaction, today: Date)
    requires t.date.Some? && t.date.value.month == today.month && t.date.value.year != today.year
    ensures CurrentMonthExpenses([t], today) == [t]
    ensures MonthlyTotal([t], today) == t.amount
  {
    assert [t][1..] == [];
    assert CurrentMonthExpenses([t], today) == [t] + CurrentMonthExpenses([], today);
    assert SumAmounts([t]) == t.amount + SumAmounts([]);
  }

  /** The first entry of a largest total: the head of the entries sorted by
      total, largest first, with a stable sort. */
  method FirstLargest(gs: seq<Group>) returns (r: Option<nat>)
    ensures r.None? <==> gs == []
    ensures r.Some? ==> r.value < |gs|
                        && (forall j :: 0 <= j < |gs| ==> gs[j].total <= gs[r.value].total)
                        && (forall j :: 0 <= j < r.value ==> gs[j].total < gs[r.value].total)
  {
    if gs == [] {
      return None;
    }
    var best := 0;
    var n := 1;
    while n < |gs|
      invariant 1 <= n <= |gs| && best < n
      invariant forall j :: 0 <= j < n ==> gs[j].total <= gs[best].total
      invariant forall j :: 0 <= j < best ==> gs[j].total < gs[best].total
    {
      if gs[n].total > gs[best].total {
        best := n;
      }
      n := n + 1;
    }
    return Some(best);
  }

  /** What the card shows as the biggest category. */
  datatype Biggest = NoExpenses | Top(category: string, total: int)

  /** The two facts about the month's groups that the card relies on: there
      is a group exactly when there is an expense, and each group's total is
      the sum of its category's amounts. */
  lemma MonthGroups(month: seq<Transaction>)
    ensures var gs := Grouped(ItemsOf(month, CategoryOf));
            (gs == [] <==> month == [])
            && forall j :: 0 <= j < |gs| ==> gs[j].total == SumKeyed(month, CategoryOf, gs[j].key)
  {
    GroupedTransactions(month, CategoryOf);
  }

  /** getBiggestCategory. */
  method GetBiggestCategory(expenses: seq<Transaction>, today: Date) returns (r: Biggest)
    ensures r.NoExpenses? <==> CurrentMonthExpenses(expenses, today) == []
    ensures r.Top? ==>
              var month := CurrentMonthExpenses(expenses, today);
              var gs := Grouped(ItemsOf(month, CategoryOf));
              (exists j :: 0 <= j < |gs| && gs[j] == Group(r.category, r.total)
                           && forall i :: 0 <= i < j ==> gs[i].total < r.total)
              && r.total == SumKeyed(month, CategoryOf, r.category)
              && forall j :: 0 <= j < |gs| ==> gs[j].total <= r.total
  {
    var month := CurrentMonthExpenses(expenses, today);
    var gs := GroupTotals(ItemsOf(month, CategoryOf));
    MonthGroups(month);
    var best := FirstLargest(gs);
    if best.None? {
      return NoExpenses;
    }
    var j := best.value;
    r := Top(gs[j].key, gs[j].total);
    assert gs[j] == Group(r.category, r.total);
  }

  /** Every category used this month, and only those, has a group. */
  lemma MonthKeys(month: seq<Transaction>)
    ensures forall c :: c in Keys(Grouped(ItemsOf(month, CategoryOf))) <==> exists t :: t in month && t.category == c
  {
    GroupedTransactions(month, CategoryOf);
    forall c ensures c in Keys(Grouped(ItemsOf(month, CategoryOf))) <==> exists t :: t in month && t.category == c {
      if exists t :: t in month && t.category == c {
        var t :| t in month && t.category == c;
        var i :| 0 <= i < |month| && month[i] == t;
        assert CategoryOf(month[i]) == c;
      }
    }
  }

  /** The per-category totals of the month add up to the monthly total, and
      every category used this month has exactly one entry. */
  lemma CategoryTotalsAddUp(expenses: seq<Transaction>, today: Date)
    ensures var month := CurrentMonthExpenses(expenses, today);
            var gs := Grouped(ItemsOf(month, CategoryOf));
            Totals(gs) == MonthlyTotal(expenses, today)
            && Distinct(Keys(gs))
            && forall c :: c in Keys(gs) <==> exists t :: t in month && t.category == c
  {
    var month := CurrentMonthExpenses(expenses, today);
    GroupedTransactions(month, CategoryOf);
    MonthKeys(month);
  }
}
