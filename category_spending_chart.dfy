/** The spending-by-category chart: the same per-category totals as a
    doughnut, or a notice when there is nothing to show. */
module CategorySpendingChart {
  import opened Common
  import opened Records
  import opened Grouping

  const CellColors: seq<string> := ["#0088FE", "#00C49F", "#FFBB28", "#FF8042", "#AF19FF", "#FF4567"]

  /** What the chart renders. */
  datatype SpendingView = NoSpendingData | Doughnut(data: seq<Group>)

  /** The categoryTotals reduce, the data mapping and the empty-data branch.
      Amounts are already whole cents, so rounding to two decimals is the
      identity here. */
  method SpendingChart(expenses: seq<Transaction>) returns (v: SpendingView)
    ensures v.NoSpendingData? <==> expenses == []
    ensures v.Doughnut? ==>
              v.data == Grouped(ItemsOf(expenses, CategoryOf))
              && Distinct(Keys(v.data))
              && (forall j :: 0 <= j < |v.data| ==> v.data[j].total == SumKeyed(expenses, CategoryOf, v.data[j].key))
              && Totals(v.data) == SumAmounts(expenses)
  {
    var totals := GroupTotals(ItemsOf(expenses, CategoryOf));
    GroupedTransactions(expenses, CategoryOf);
    if |totals| == 0 {
      return NoSpendingData;
    }
    return Doughnut(totals);
  }

  /** The fill of cell `index`. */
  function CellColor(index: nat): string {
    Cycled(CellColors, index)
  }

  /** Cell colours repeat every six cells, and no two of six neighbouring
      cells share a colour. */
  lemma CellColorsCycle(a: nat, b: nat)
    ensures CellColor(a + 6) == CellColor(a)
    ensures a < b < a + 6 ==> CellColor(a) != CellColor(b)
  {
    CycledColours(CellColors, a, b);
  }
}
