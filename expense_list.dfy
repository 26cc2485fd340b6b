/** The transaction list: expenses and incomes merged, filtered by the search
    fields, sorted newest first, exported with a totals row, and deleted
    through a confirmation dialog. */
module TransactionList {
  import opened Common
  import opened Records
  import opened ExpenseStore

  datatype Kind = ExpenseKind | IncomeKind

  /** A record together with the list it came from (the `type` field). */
  datatype Tagged = Tagged(t: Transaction, kind: Kind)

  function KindName(k: Kind): string {
    if k == ExpenseKind then "expense" else "income"
  }

  function Tag(ts: seq<Transaction>, k: Kind): (r: seq<Tagged>)
    ensures |r| == |ts| && forall i :: 0 <= i < |ts| ==> r[i] == Tagged(ts[i], k)
  {
    seq(|ts|, i requires 0 <= i < |ts| => Tagged(ts[i], k))
  }

  /** allTransactions: the expenses tagged "expense", then the incomes tagged
      "income". */
  function AllTransactions(expenses: seq<Transaction>, incomes: seq<Transaction>): (r: seq<Tagged>)
    ensures |r| == |expenses| + |incomes|
    ensures forall i :: 0 <= i < |expenses| ==> r[i] == Tagged(expenses[i], ExpenseKind)
    ensures forall i :: 0 <= i < |incomes| ==> r[|expenses| + i] == Tagged(incomes[i], IncomeKind)
  {
    Tag(expenses, ExpenseKind) + Tag(incomes, IncomeKind)
  }

  // ----- the month picker -----

  function Digit(d: int): char
    requires 0 <= d <= 9
  {
    ('0' as int + d) as char
  }

  /** `String(m).padStart(2, "0")` for a month number 1..12. */
  function MonthValue(m: int): string
    requires 1 <= m <= 12
  {
    if m < 10 then ['0', Digit(m)] else ['1', Digit(m - 10)]
  }

  /** allMonths: the values of the month picker. */
  function AllMonths(): (r: seq<string>)
    ensures r == ["01", "02", "03", "04", "05", "06", "07", "08", "09", "10", "11", "12"]
  {
    seq(12, i requires 0 <= i < 12 => MonthValue(i + 1))
  }

  // ----- filtering -----

  datatype TypeFilter = AllTypes | OnlyType(kind: Kind)

  /** The search fields. An empty category, an absent date and an absent
      month mean "no filter"; a month is the number behind the picker's
      two-digit value. */
  datatype Query = Query(term: string, category: string, date: Option<Date>, month: Option<int>, typeFilter: TypeFilter)

  const NoQuery := Query("", "", None, None, AllTypes)

  /** The filter of filteredTransactions. With every field empty nothing is
      filtered out; a chosen category, date or type admits only records that
      have it, and a record without a valid date has no month, so any month
      filter drops it. */
  predicate Matches(q: Query, x: Tagged): (r: bool)
    ensures q == NoQuery ==> r
    ensures r && q.category != "" ==> x.t.category == q.category
    ensures r && q.date.Some? ==> x.t.date == q.date
    ensures r && q.month.Some? ==> x.t.date.Some? && x.t.date.value.month == q.month.value
    ensures r && q.typeFilter.OnlyType? ==> x.kind == q.typeFilter.kind
  {
    assert ToLower(NoQuery.term) == [];
    Contains(ToLower(x.t.description), ToLower(q.term))
    && (q.category == "" || x.t.category == q.category)
    && (q.date.None? || x.t.date == q.date)
    && (q.month.None? || (x.t.date.Some? && x.t.date.value.month == q.month.value))
    && (q.typeFilter.AllTypes? || x.kind == q.typeFilter.kind)
  }

  /** The type filter keeps exactly the records of that type. */
  lemma TypeFilterSelectsKind(q: Query, x: Tagged)
    requires q.typeFilter.OnlyType?
    ensures Matches(q, x) ==> x.kind == q.typeFilter.kind
    ensures Matches(q, x) <==> Matches(q.(typeFilter := AllTypes), x) && x.kind == q.typeFilter.kind
  {
  }

  // ----- sorting, newest first -----

  /** `a` may come before `b` in the sorted list. A record without a valid
      date is treated as older than any dated one. */
  predicate NotOlder(a: Tagged, b: Tagged) {
    b.t.date.None? || (a.t.date.Some? && Ordinal(a.t.date.value) >= Ordinal(b.t.date.value))
  }

  predicate NewestFirst(s: seq<Tagged>) {
    forall i, j :: 0 <= i < j < |s| ==> NotOlder(s[i], s[j])
  }

  function Insert(x: Tagged, s: seq<Tagged>): (r: seq<Tagged>)
    ensures multiset(r) == multiset(s) + multiset{x}
    ensures |r| == |s| + 1
  {
    if s == [] then [x]
    else if NotOlder(x, s[0]) then [x] + s
    else
      assert s == [s[0]] + s[1..];
      [s[0]] + Insert(x, s[1..])
  }

  lemma {:induction false} InsertKeepsOrder(x: Tagged, s: seq<Tagged>)
    requires NewestFirst(s)
    ensures NewestFirst(Insert(x, s))
  {
    if s != [] && !NotOlder(x, s[0]) {
      var rest := s[1..];
      assert NewestFirst(rest) by {
        forall i, j | 0 <= i < j < |rest| ensures NotOlder(rest[i], rest[j]) {
          assert rest[i] == s[i + 1] && rest[j] == s[j + 1];
        }
      }
      InsertKeepsOrder(x, rest);
      var r := Insert(x, s);
      var tail := Insert(x, rest);
      assert r == [s[0]] + tail;
      forall j | 1 <= j < |r| ensures NotOlder(r[0], r[j]) {
        assert r[j] in multiset(tail);
        assert r[j] in multiset(rest) || r[j] == x;
        if r[j] != x {
          var k :| 0 <= k < |rest| && rest[k] == r[j];
          assert s[k + 1] == r[j];
        }
      }
    }
  }

  /** The sort of filteredTransactions. */
  function SortNewestFirst(s: seq<Tagged>): (r: seq<Tagged>)
    ensures multiset(r) == multiset(s)
    ensures |r| == |s|
  {
    if s == [] then []
    else
      assert s == [s[0]] + s[1..];
      Insert(s[0], SortNewestFirst(s[1..]))
  }

  lemma {:induction false} SortedNewestFirst(s: seq<Tagged>)
    ensures NewestFirst(SortNewestFirst(s))
  {
    if s != [] {
      SortedNewestFirst(s[1..]);
      InsertKeepsOrder(s[0], SortNewestFirst(s[1..]));
    }
  }

  /** filteredTransactions: the listed records are exactly the matching
      ones, newest first. */
  function FilteredTransactions(all: seq<Tagged>, q: Query): (r: seq<Tagged>)
    ensures forall x :: x in r <==> x in all && Matches(q, x)
    ensures NewestFirst(r)
  {
    var selected := Filter(x => Matches(q, x), all);
    SortedNewestFirst(selected);
    var r := SortNewestFirst(selected);
    assert forall x :: x in r <==> x in multiset(r);
    assert forall x :: x in multiset(selected) <==> x in selected;
    assert forall x :: x in all ==> exists i :: 0 <= i < |all| && all[i] == x;
    r
  }

  /** The list shown holds each matching record as often as the merged list
      does, no other record, and is sorted newest first. */
  lemma FilteredIsSortedSelection(all: seq<Tagged>, q: Query, x: Tagged)
    ensures multiset(FilteredTransactions(all, q))[x] == if Matches(q, x) then multiset(all)[x] else 0
    ensures NewestFirst(FilteredTransactions(all, q))
    ensures multiset(FilteredTransactions(all, q)) <= multiset(all)
  {
    var p := (y: Tagged) => Matches(q, y);
    FilterCounts(p, all, x);
    SortedNewestFirst(Filter(p, all));
    forall y ensures multiset(Filter(p, all))[y] <= multiset(all)[y] {
      FilterCounts(p, all, y);
    }
  }

  // ----- export -----

  /** A money cell of the sheet: the amount, or the empty string. */
  datatype Cell = EmptyCell | AmountCell(value: int)

  /** The date cell: a record's date (formatted by the locale) or the label
      of the totals row. */
  datatype DateCell = DateOf(date: Option<Date>) | TotalLabel

  datatype Row = Row(date: DateCell, description: string, category: string, typeName: string, income: Cell, expense: Cell)

  /** One sheet row: the amount goes in the column of the record's kind and
      the other column stays empty. */
  function RowOf(x: Tagged): (r: Row)
    ensures r.date == DateOf(x.t.date) && r.description == x.t.description && r.category == x.t.category
    ensures r.typeName == (if x.kind == ExpenseKind then "Expense" else "Income")
    ensures (r.income.AmountCell? <==> x.kind == IncomeKind) && (r.expense.AmountCell? <==> x.kind == ExpenseKind)
    ensures CellValue(r.income) + CellValue(r.expense) == x.t.amount
  {
    Row(DateOf(x.t.date), x.t.description, x.t.category,
        if x.kind == ExpenseKind then "Expense" else "Income",
        if x.kind == IncomeKind then AmountCell(x.t.amount) else EmptyCell,
        if x.kind == ExpenseKind then AmountCell(x.t.amount) else EmptyCell)
  }

  /** `cell || 0`: the empty string counts as 0. */
  function CellValue(c: Cell): int {
    if c.AmountCell? then c.value else 0
  }

  function IncomeColumn(rows: seq<Row>): int {
    if rows == [] then 0 else CellValue(rows[0].income) + IncomeColumn(rows[1..])
  }

  function ExpenseColumn(rows: seq<Row>): int {
    if rows == [] then 0 else CellValue(rows[0].expense) + ExpenseColumn(rows[1..])
  }

  /** exportToExcel's rows: one per listed record, then the TOTAL row. */
  function ExportRows(listed: seq<Tagged>): (r: seq<Row>)
    ensures |r| == |listed| + 1
    ensures forall i :: 0 <= i < |listed| ==> r[i] == RowOf(listed[i])
    ensures r[|listed|].date == TotalLabel && r[|listed|].description == "" && r[|listed|].category == ""
            && r[|listed|].typeName == ""
  {
    var rows := seq(|listed|, i requires 0 <= i < |listed| => RowOf(listed[i]));
    rows + [Row(TotalLabel, "", "", "", AmountCell(IncomeColumn(rows)), AmountCell(ExpenseColumn(rows)))]
  }

  /** The amounts of the records of one kind. */
  function AmountsOf(listed: seq<Tagged>, k: Kind): int {
    if listed == [] then 0 else (if listed[0].kind == k then listed[0].t.amount else 0) + AmountsOf(listed[1..], k)
  }

  lemma {:induction false} ColumnsAreKindSums(listed: seq<Tagged>)
    ensures var rows := seq(|listed|, i requires 0 <= i < |listed| => RowOf(listed[i]));
            IncomeColumn(rows) == AmountsOf(listed, IncomeKind) && ExpenseColumn(rows) == AmountsOf(listed, ExpenseKind)
  {
    if listed != [] {
      ColumnsAreKindSums(listed[1..]);
      var rows := seq(|listed|, i requires 0 <= i < |listed| => RowOf(listed[i]));
      assert rows[1..] == seq(|listed[1..]|, i requires 0 <= i < |listed[1..]| => RowOf(listed[1..][i]));
    }
  }

  /** The TOTAL row's Income is the sum of the listed incomes and its Expense
      the sum of the listed expenses. */
  lemma ExportTotals(listed: seq<Tagged>)
    ensures ExportRows(listed)[|listed|].income == AmountCell(AmountsOf(listed, IncomeKind))
    ensures ExportRows(listed)[|listed|].expense == AmountCell(AmountsOf(listed, ExpenseKind))
  {
    ColumnsAreKindSums(listed);
  }

  /** Over the unfiltered merged list, the kind sums are the two stores' sums. */
  lemma {:induction false} KindSumsOfMerged(expenses: seq<Transaction>, incomes: seq<Transaction>)
    ensures AmountsOf(AllTransactions(expenses, incomes), ExpenseKind) == SumAmounts(expenses)
    ensures AmountsOf(AllTransactions(expenses, incomes), IncomeKind) == SumAmounts(incomes)
  {
    TagSums(expenses, ExpenseKind);
    TagSums(incomes, IncomeKind);
    AmountsOfAppend(Tag(expenses, ExpenseKind), Tag(incomes, IncomeKind), ExpenseKind);
    AmountsOfAppend(Tag(expenses, ExpenseKind), Tag(incomes, IncomeKind), IncomeKind);
  }

  lemma {:induction false} TagSums(ts: seq<Transaction>, k: Kind)
    ensures AmountsOf(Tag(ts, k), k) == SumAmounts(ts)
    ensures forall other :: other != k ==> AmountsOf(Tag(ts, k), other) == 0
  {
    if ts != [] {
      TagSums(ts[1..], k);
      assert Tag(ts, k)[1..] == Tag(ts[1..], k);
    }
  }

  lemma {:induction false} AmountsOfAppend(a: seq<Tagged>, b: seq<Tagged>, k: Kind)
    ensures AmountsOf(a + b, k) == AmountsOf(a, k) + AmountsOf(b, k)
  {
    if a == [] {
      assert a + b == b;
    } else {
      assert (a + b)[1..] == a[1..] + b;
      AmountsOfAppend(a[1..], b, k);
    }
  }

  // ----- the delete dialog -----

  function DeleteFailed(k: Kind): string {
    "Failed to delete " + KindName(k) + ". Please try again."
  }

  /** The dialog's state fields; `pending` is the transaction the waiting
      remove call was given. */
  datatype DialogView = DialogView(deleteDialogOpen: bool, selected: Option<Tagged>, error: string, loading: bool,
                                   pending: Option<Tagged>)

  class TransactionListPage {
    const store: Store
    var deleteDialogOpen: bool
    var selected: Option<Tagged>
    var error: string
    var loading: bool
    var pending: Option<Tagged>

    function View(): DialogView
      reads this
    {
      DialogView(deleteDialogOpen, selected, error, loading, pending)
    }

    /** A waiting delete always has its transaction. */
    predicate Valid()
      reads this
    {
      loading ==> pending.Some?
    }

    constructor (s: Store)
      ensures store == s && View() == DialogView(false, None, "", false, None) && Valid()
    {
      pending := None;
      store := s;
      deleteDialogOpen := false;
      selected := None;
      error := "";
      loading := false;
    }

    /** handleDeleteClick. */
    method HandleDeleteClick(x: Tagged)
      modifies this
      ensures View() == old(View()).(selected := Some(x), deleteDialogOpen := true)
      ensures old(Valid()) ==> Valid()
    {
      selected := Some(x);
      deleteDialogOpen := true;
    }

    /** handleDeleteConfirm up to its await: with nothing selected the dialog
        just closes; otherwise loading starts. */
    method BeginDeleteConfirm() returns (started: bool)
      requires !loading
      modifies this
      ensures started <==> old(selected).Some?
      ensures !started ==> View() == old(View()).(deleteDialogOpen := false)
      ensures started ==> View() == old(View()).(loading := true, pending := old(selected))
      ensures Valid()
    {
      if selected.None? {
        deleteDialogOpen := false;
        return false;
      }
      loading := true;
      pending := selected;
      return true;
    }

    /** handleDeleteConfirm after its await: the store removes the record
        from the list it came from. */
    method CompleteDeleteConfirm(backend: Outcome)
      requires loading && Valid()
      modifies this, store
      ensures var x := old(pending).value;
              var ok := old(store.currentUser).Some? && x.t.id != "" && backend.Succeeded?;
              (ok ==> View() == old(View()).(deleteDialogOpen := false, selected := None, error := "", loading := false)
                      && (x.kind == IncomeKind ==> store.State() == old(store.State()).(incomes := WithoutId(old(store.incomes), x.t.id)))
                      && (x.kind == ExpenseKind ==> store.State() == old(store.State()).(expenses := WithoutId(old(store.expenses), x.t.id))))
              && (!ok ==> View() == old(View()).(error := DeleteFailed(x.kind), loading := false)
                          && store.State() == old(store.State()))
      ensures !loading && Valid()
    {
      var x := pending.value;
      var r;
      if x.kind == IncomeKind {
        r := store.RemoveIncome(x.t.id, backend);
      } else {
        r := store.RemoveExpense(x.t.id, backend);
      }
      if r.Succeeded? {
        deleteDialogOpen := false;
        selected := None;
        error := "";
      } else {
        error := DeleteFailed(x.kind);
      }
      loading := false;
    }

    /** handleDeleteCancel: ignored while a delete is in flight. */
    method HandleDeleteCancel()
      modifies this
      ensures old(loading) ==> View() == old(View())
      ensures !old(loading) ==> View() == old(View()).(deleteDialogOpen := false, selected := None, error := "")
      ensures old(Valid()) ==> Valid()
    {
      if loading {
        return;
      }
      deleteDialogOpen := false;
      selected := None;
      error := "";
    }
  }
}
