/** The daily expense line chart: expense totals per calendar day. */
module ExpenseChart {
  import opened Common
  import opened Records
  import opened Grouping

  /** The key a transaction is grouped under: the day its date renders as. */
  function DayOf(dayKey: Option<Date> -> string): Transaction -> string {
    (t: Transaction) => dayKey(t.date)
  }

  /** getDailyData. `dayKey` is the locale's short date rendering of a stored
      date (an invalid date renders as one fixed string too). */
  method GetDailyData(expenses: seq<Transaction>, dayKey: Option<Date> -> string) returns (series: seq<Group>)
    ensures series == Grouped(ItemsOf(expenses, DayOf(dayKey)))
    ensures Distinct(Keys(series))
    ensures forall d :: d in Keys(series) <==> exists i :: 0 <= i < |expenses| && DayOf(dayKey)(expenses[i]) == d
    ensures forall j :: 0 <= j < |series| ==> series[j].total == SumKeyed(expenses, DayOf(dayKey), series[j].key)
    ensures Totals(series) == SumAmounts(expenses)
    ensures series == [] <==> expenses == []
  {
    series := GroupTotals(ItemsOf(expenses, DayOf(dayKey)));
    GroupedTransactions(expenses, DayOf(dayKey));
  }
}
