/** The records the store keeps for a user: expenses and incomes (both are
    transactions) and budgets, with the sums every view computes over them. */
module Records {
  import opened Common

  /** An expense or an income as held in local state. `date` is None when the
      stored date string is not a valid date (an unchecked blank date field). */
  datatype Transaction = Transaction(
    id: string,
    userId: string,
    amount: int,
    category: string,
    description: string,
    date: Option<Date>)

  /** A budget; `period` is "monthly" or "yearly" as chosen in the form.
      `userId` is absent on a budget that local state took over from an edit. */
  datatype Budget = Budget(
    id: string,
    userId: Option<string>,
    category: string,
    amount: int,
    period: string)

  /** The fields a caller hands to addExpense / addIncome. */
  datatype Draft = Draft(amount: int, category: string, description: string, date: Option<Date>)

  /** The fields of a form that adds an expense or an income. `date` is the
      date input: None when it is blank, which a date input yields for
      anything that is not a valid date. */
  datatype EntryForm = EntryForm(description: string, amount: AmountField, category: string, date: Option<Date>)

  /** No field of the form is empty. */
  predicate Filled(f: EntryForm) {
    f.amount.Entered? && f.description != "" && f.category != "" && f.date.Some?
  }

  /** A transaction form as it opens and as a successful submit leaves it:
      every field empty but the date, which is today. */
  function EmptyEntry(today: Date): (f: EntryForm)
    ensures !Filled(f) && f.amount.Blank? && f.date == Some(today)
  {
    EntryForm("", Blank, "", Some(today))
  }

  /** The record a form hands to the store: its fields, with the parsed amount. */
  function DraftOf(f: EntryForm): (d: Draft)
    requires f.amount.Entered?
    ensures d.amount == f.amount.cents && d.category == f.category
    ensures d.description == f.description && d.date == f.date
  {
    Draft(f.amount.cents, f.category, f.description, f.date)
  }

  /** The fields a caller hands to addBudget. */
  datatype BudgetDraft = BudgetDraft(category: string, amount: int, period: string)

  /** `list.reduce((sum, t) => sum + t.amount, 0)` */
  function SumAmounts(ts: seq<Transaction>): int {
    if ts == [] then 0 else ts[0].amount + SumAmounts(ts[1..])
  }

  lemma {:induction false} SumAmountsAppend(a: seq<Transaction>, b: seq<Transaction>)
    ensures SumAmounts(a + b) == SumAmounts(a) + SumAmounts(b)
  {
    if a == [] {
      assert a + b == b;
    } else {
      assert (a + b)[1..] == a[1..] + b;
      SumAmountsAppend(a[1..], b);
    }
  }

  /** Records of no negative amount add up to no negative sum. */
  lemma {:induction false} SumAmountsNonNegative(ts: seq<Transaction>)
    ensures (forall t :: t in ts ==> t.amount >= 0) ==> SumAmounts(ts) >= 0
  {
    if ts != [] {
      SumAmountsNonNegative(ts[1..]);
      assert forall t :: t in ts[1..] ==> t in ts;
    }
  }

  /** The transactions of one category, in order. */
  function OfCategory(ts: seq<Transaction>, category: string): (r: seq<Transaction>)
    ensures forall t :: t in r <==> t in ts && t.category == category
  {
    if ts == [] then []
    else (if ts[0].category == category then [ts[0]] else []) + OfCategory(ts[1..], category)
  }

  lemma {:induction false} OfCategoryAppend(a: seq<Transaction>, b: seq<Transaction>, category: string)
    ensures OfCategory(a + b, category) == OfCategory(a, category) + OfCategory(b, category)
  {
    if a == [] {
      assert a + b == b;
    } else {
      assert (a + b)[1..] == a[1..] + b;
      OfCategoryAppend(a[1..], b, category);
    }
  }

  /** `list.filter(t => t.id !== id)`: every record with that id is dropped. */
  function WithoutId(ts: seq<Transaction>, id: string): (r: seq<Transaction>)
    ensures forall t :: t in r <==> t in ts && t.id != id
  {
    if ts == [] then []
    else (if ts[0].id != id then [ts[0]] else []) + WithoutId(ts[1..], id)
  }

  /** Removal by id keeps each other record exactly as often as it occurred,
      and splits over concatenation, so the survivors keep their order. */
  lemma {:induction false} WithoutIdKeepsOthers(ts: seq<Transaction>, id: string, t: Transaction)
    ensures multiset(WithoutId(ts, id))[t] == if t.id == id then 0 else multiset(ts)[t]
  {
    if ts != [] {
      WithoutIdKeepsOthers(ts[1..], id, t);
      assert ts == [ts[0]] + ts[1..];
    }
  }

  lemma {:induction false} WithoutIdAppend(a: seq<Transaction>, b: seq<Transaction>, id: string)
    ensures WithoutId(a + b, id) == WithoutId(a, id) + WithoutId(b, id)
  {
    if a == [] {
      assert a + b == b;
    } else {
      assert (a + b)[1..] == a[1..] + b;
      WithoutIdAppend(a[1..], b, id);
    }
  }

  /** `budgets.filter(b => b.id !== id)` */
  function BudgetsWithoutId(bs: seq<Budget>, id: string): (r: seq<Budget>)
    ensures forall b :: b in r <==> b in bs && b.id != id
  {
    if bs == [] then []
    else (if bs[0].id != id then [bs[0]] else []) + BudgetsWithoutId(bs[1..], id)
  }

  /** `budgets.map(b => b.id === edited.id ? edited : b)` */
  function ReplaceBudget(bs: seq<Budget>, edited: Budget): (r: seq<Budget>)
    ensures |r| == |bs|
    ensures forall i :: 0 <= i < |bs| ==> r[i] == if bs[i].id == edited.id then edited else bs[i]
  {
    if bs == [] then []
    else [if bs[0].id == edited.id then edited else bs[0]] + ReplaceBudget(bs[1..], edited)
  }
}
