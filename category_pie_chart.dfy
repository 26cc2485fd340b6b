/** The category pie chart: expense totals per category, one slice each,
    coloured by cycling through a six-colour palette. */
module CategoryPieChart {
  import opened Common
  import opened Records
  import opened Grouping

  const PieColors: seq<string> := ["#60a5fa", "#f472b6", "#4ade80", "#fb923c", "#a78bfa", "#facc15"]

  /** getCategoryData: one entry per distinct category, in order of first
      use, valued at that category's total. */
  method GetCategoryData(expenses: seq<Transaction>) returns (data: seq<Group>)
    ensures data == Grouped(ItemsOf(expenses, CategoryOf))
    ensures Distinct(Keys(data))
    ensures forall c :: c in Keys(data) <==> exists i :: 0 <= i < |expenses| && expenses[i].category == c
    ensures forall j :: 0 <= j < |data| ==> data[j].total == SumKeyed(expenses, CategoryOf, data[j].key)
    ensures Totals(data) == SumAmounts(expenses)
    ensures data == [] <==> expenses == []
  {
    data := GroupTotals(ItemsOf(expenses, CategoryOf));
    GroupedTransactions(expenses, CategoryOf);
  }

  /** The fill of slice `index`. */
  function SliceColor(index: nat): string {
    Cycled(PieColors, index)
  }

  /** Slice colours repeat every six slices, and no two of six neighbouring
      slices share a colour. */
  lemma SliceColorsCycle(a: nat, b: nat)
    ensures SliceColor(a + 6) == SliceColor(a)
    ensures a < b < a + 6 ==> SliceColor(a) != SliceColor(b)
  {
    CycledColours(PieColors, a, b);
  }
}
