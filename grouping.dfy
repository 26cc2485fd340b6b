/** Grouping amounts by a string key into a plain object, the way the charts
    and the monthly statistics do it: a loop adds each amount to
    `totals[key]` (starting from 0 when the key is new), and the object's
    entries are then read back in insertion order. */
module Grouping {
  import opened Common
  import opened Records

  /** One amount to be grouped, under its key (a category or a day). */
  datatype Item = Item(key: string, amount: int)

  /** One entry of the totals object. */
  datatype Group = Group(key: string, total: int)

  function Keys(gs: seq<Group>): (ks: seq<string>)
    ensures |ks| == |gs| && forall j :: 0 <= j < |gs| ==> ks[j] == gs[j].key
  {
    if gs == [] then [] else [gs[0].key] + Keys(gs[1..])
  }

  function ItemKeys(items: seq<Item>): (ks: seq<string>)
    ensures |ks| == |items| && forall i :: 0 <= i < |items| ==> ks[i] == items[i].key
  {
    if items == [] then [] else [items[0].key] + ItemKeys(items[1..])
  }

  function Totals(gs: seq<Group>): int {
    if gs == [] then 0 else gs[0].total + Totals(gs[1..])
  }

  function ItemsTotal(items: seq<Item>): int {
    if items == [] then 0 else ItemsTotal(items[..|items| - 1]) + items[|items| - 1].amount
  }

  /** The sum of the amounts filed under `k`. */
  function SumFor(items: seq<Item>, k: string): int {
    if items == [] then 0
    else SumFor(items[..|items| - 1], k) + (if items[|items| - 1].key == k then items[|items| - 1].amount else 0)
  }

  predicate Distinct(ks: seq<string>) {
    forall i, j :: 0 <= i < j < |ks| ==> ks[i] != ks[j]
  }

  /** The distinct keys in order of first occurrence. */
  function FirstOccurrences(ks: seq<string>): seq<string> {
    if ks == [] then []
    else
      var seen := FirstOccurrences(ks[..|ks| - 1]);
      if ks[|ks| - 1] in seen then seen else seen + [ks[|ks| - 1]]
  }

  /** `totals[it.key] = (totals[it.key] || 0) + it.amount` */
  function Bump(gs: seq<Group>, it: Item): seq<Group> {
    if gs == [] then [Group(it.key, it.amount)]
    else if gs[0].key == it.key then [Group(it.key, gs[0].total + it.amount)] + gs[1..]
    else [gs[0]] + Bump(gs[1..], it)
  }

  /** The entries of the totals object after every item has been added:
      there are none exactly when there are no items. */
  function Grouped(items: seq<Item>): (gs: seq<Group>)
    ensures gs == [] <==> items == []
  {
    if items == [] then [] else Bump(Grouped(items[..|items| - 1]), items[|items| - 1])
  }

  /** The forEach loop of the source, over a dictionary held as its entry list. */
  method GroupTotals(items: seq<Item>) returns (groups: seq<Group>)
    ensures groups == Grouped(items)
    ensures Keys(groups) == FirstOccurrences(ItemKeys(items))
    ensures Distinct(Keys(groups))
    ensures forall j :: 0 <= j < |groups| ==> groups[j].total == SumFor(items, groups[j].key)
    ensures Totals(groups) == ItemsTotal(items)
  {
    groups := [];
    var n := 0;
    while n < |items|
      invariant n <= |items|
      invariant groups == Grouped(items[..n])
    {
      assert items[..n + 1][..n] == items[..n];
      groups := Bump(groups, items[n]);
      n := n + 1;
    }
    assert items[..n] == items;
    GroupedFacts(items);
  }

  // ----- what a bump does -----

  lemma {:induction false} BumpKeys(gs: seq<Group>, it: Item)
    ensures Keys(Bump(gs, it)) == if it.key in Keys(gs) then Keys(gs) else Keys(gs) + [it.key]
  {
    if gs != [] && gs[0].key != it.key {
      BumpKeys(gs[1..], it);
      assert Keys(gs) == [gs[0].key] + Keys(gs[1..]);
    }
  }

  lemma {:induction false} BumpTotals(gs: seq<Group>, it: Item)
    ensures Totals(Bump(gs, it)) == Totals(gs) + it.amount
  {
    if gs != [] && gs[0].key != it.key {
      BumpTotals(gs[1..], it);
    }
  }

  /** A bump adds the amount to the entry with the item's key (creating it
      with the amount when there is none) and leaves every other entry. */
  lemma {:induction false} BumpEntry(gs: seq<Group>, it: Item, k: string, j: int)
    requires Distinct(Keys(gs))
    requires 0 <= j < |Bump(gs, it)| && Bump(gs, it)[j].key == k
    ensures j < |gs| ==> gs[j].key == k && Bump(gs, it)[j].total == gs[j].total + (if k == it.key then it.amount else 0)
    ensures j >= |gs| ==> k == it.key && k !in Keys(gs) && Bump(gs, it)[j].total == it.amount
  {
    if gs != [] && gs[0].key != it.key && j > 0 {
      assert Distinct(Keys(gs[1..])) by {
        forall a, b | 0 <= a < b < |Keys(gs[1..])| ensures Keys(gs[1..])[a] != Keys(gs[1..])[b] {
          assert Keys(gs)[a + 1] != Keys(gs)[b + 1];
        }
      }
      BumpEntry(gs[1..], it, k, j - 1);
    }
  }

  // ----- what the whole grouping does -----

  lemma {:induction false} GroupedKeys(items: seq<Item>)
    ensures Keys(Grouped(items)) == FirstOccurrences(ItemKeys(items))
  {
    if items != [] {
      var prefix := items[..|items| - 1];
      GroupedKeys(prefix);
      BumpKeys(Grouped(prefix), items[|items| - 1]);
      assert ItemKeys(items)[..|items| - 1] == ItemKeys(prefix);
    }
  }

  lemma {:induction false} FirstOccurrencesDistinct(ks: seq<string>)
    ensures Distinct(FirstOccurrences(ks))
    ensures forall k :: k in FirstOccurrences(ks) <==> k in ks
  {
    if ks != [] {
      var prefix := ks[..|ks| - 1];
      FirstOccurrencesDistinct(prefix);
      assert ks == prefix + [ks[|ks| - 1]];
    }
  }

  lemma {:induction false} GroupedTotals(items: seq<Item>)
    ensures Totals(Grouped(items)) == ItemsTotal(items)
  {
    if items != [] {
      var prefix := items[..|items| - 1];
      GroupedTotals(prefix);
      BumpTotals(Grouped(prefix), items[|items| - 1]);
    }
  }

  /** A key nobody used has nothing filed under it. */
  lemma {:induction false} SumForAbsent(items: seq<Item>, k: string)
    requires k !in ItemKeys(items)
    ensures SumFor(items, k) == 0
  {
    if items != [] {
      var prefix := items[..|items| - 1];
      assert ItemKeys(items)[..|items| - 1] == ItemKeys(prefix);
      assert items[|items| - 1].key == ItemKeys(items)[|items| - 1];
      SumForAbsent(prefix, k);
    }
  }

  lemma {:induction false} GroupedEntries(items: seq<Item>)
    ensures Distinct(Keys(Grouped(items)))
    ensures forall j :: 0 <= j < |Grouped(items)| ==> Grouped(items)[j].total == SumFor(items, Grouped(items)[j].key)
  {
    GroupedKeys(items);
    FirstOccurrencesDistinct(ItemKeys(items));
    if items != [] {
      var prefix := items[..|items| - 1];
      var it := items[|items| - 1];
      var before := Grouped(prefix);
      GroupedEntries(prefix);
      GroupedKeys(prefix);
      FirstOccurrencesDistinct(ItemKeys(prefix));
      assert ItemKeys(items)[..|items| - 1] == ItemKeys(prefix);
      forall j | 0 <= j < |Grouped(items)|
        ensures Grouped(items)[j].total == SumFor(items, Grouped(items)[j].key)
      {
        var k := Grouped(items)[j].key;
        BumpEntry(before, it, k, j);
        if j >= |before| {
          SumForAbsent(prefix, k);
        }
      }
    }
  }

  /** Everything the grouping promises, in one place. */
  lemma GroupedFacts(items: seq<Item>)
    ensures Keys(Grouped(items)) == FirstOccurrences(ItemKeys(items))
    ensures Distinct(Keys(Grouped(items)))
    ensures forall j :: 0 <= j < |Grouped(items)| ==> Grouped(items)[j].total == SumFor(items, Grouped(items)[j].key)
    ensures Totals(Grouped(items)) == ItemsTotal(items)
    ensures forall k :: k in Keys(Grouped(items)) <==> k in ItemKeys(items)
    ensures Grouped(items) == [] <==> items == []
  {
    GroupedKeys(items);
    GroupedEntries(items);
    GroupedTotals(items);
    FirstOccurrencesDistinct(ItemKeys(items));
  }

  // ----- grouping transactions -----

  /** Each transaction's amount under the key `keyOf` gives it. */
  function ItemsOf(ts: seq<Transaction>, keyOf: Transaction -> string): (items: seq<Item>)
    ensures |items| == |ts|
    ensures forall i :: 0 <= i < |ts| ==> items[i] == Item(keyOf(ts[i]), ts[i].amount)
  {
    if ts == [] then [] else ItemsOf(ts[..|ts| - 1], keyOf) + [Item(keyOf(ts[|ts| - 1]), ts[|ts| - 1].amount)]
  }

  /** The sum of the amounts of the transactions that `keyOf` files under `k`. */
  function SumKeyed(ts: seq<Transaction>, keyOf: Transaction -> string, k: string): int {
    if ts == [] then 0
    else SumKeyed(ts[..|ts| - 1], keyOf, k) + (if keyOf(ts[|ts| - 1]) == k then ts[|ts| - 1].amount else 0)
  }

  function CategoryOf(t: Transaction): string {
    t.category
  }

  /** Grouping transactions: one entry per distinct key, in order of first
      use; each entry holds the sum of that key's amounts; the entries add up
      to the sum of all amounts; no transactions give no entries. */
  lemma {:induction false} GroupedTransactions(ts: seq<Transaction>, keyOf: Transaction -> string)
    ensures var gs := Grouped(ItemsOf(ts, keyOf));
            Distinct(Keys(gs))
            && (forall k :: k in Keys(gs) <==> exists i :: 0 <= i < |ts| && keyOf(ts[i]) == k)
            && (forall j :: 0 <= j < |gs| ==> gs[j].total == SumKeyed(ts, keyOf, gs[j].key))
            && Totals(gs) == SumAmounts(ts)
            && (gs == [] <==> ts == [])
  {
    var items := ItemsOf(ts, keyOf);
    GroupedFacts(items);
    forall k ensures k in ItemKeys(items) <==> exists i :: 0 <= i < |ts| && keyOf(ts[i]) == k {
      if k in ItemKeys(items) {
        var i :| 0 <= i < |items| && ItemKeys(items)[i] == k;
        assert keyOf(ts[i]) == k;
      }
      if exists i :: 0 <= i < |ts| && keyOf(ts[i]) == k {
        var i :| 0 <= i < |ts| && keyOf(ts[i]) == k;
        assert ItemKeys(items)[i] == k;
      }
    }
    forall k ensures SumFor(items, k) == SumKeyed(ts, keyOf, k) {
      SumForKeyed(ts, keyOf, k);
    }
    ItemsTotalIsSum(ts, keyOf);
  }

  lemma {:induction false} SumForKeyed(ts: seq<Transaction>, keyOf: Transaction -> string, k: string)
    ensures SumFor(ItemsOf(ts, keyOf), k) == SumKeyed(ts, keyOf, k)
  {
    if ts != [] {
      var items := ItemsOf(ts, keyOf);
      assert items[..|items| - 1] == ItemsOf(ts[..|ts| - 1], keyOf);
      SumForKeyed(ts[..|ts| - 1], keyOf, k);
    }
  }

  lemma {:induction false} ItemsTotalIsSum(ts: seq<Transaction>, keyOf: Transaction -> string)
    ensures ItemsTotal(ItemsOf(ts, keyOf)) == SumAmounts(ts)
  {
    if ts != [] {
      var items := ItemsOf(ts, keyOf);
      var prefix := ts[..|ts| - 1];
      assert items[..|items| - 1] == ItemsOf(prefix, keyOf);
      ItemsTotalIsSum(prefix, keyOf);
      assert ts == prefix + [ts[|ts| - 1]];
      SumAmountsAppend(prefix, [ts[|ts| - 1]]);
    }
  }
}
