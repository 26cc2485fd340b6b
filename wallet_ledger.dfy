/** The shared-wallet ledger: the wallet documents of the "sharedWallets"
    collection, the array-union and array-remove field transforms the backend
    applies to their expense lists, and the invariant that a wallet's
    `totalSpent` equals the sum of its expense amounts. */
module WalletLedger {
  import opened Common

  /** One expense of a shared wallet; the amount is in integer cents. */
  datatype SharedExpense = SharedExpense(
    id: string,
    description: string,
    amount: int,
    category: string,
    paidBy: string,
    date: Instant)

  /** A wallet document; `members` and `createdBy` are e-mail addresses. */
  datatype Wallet = Wallet(
    name: string,
    description: string,
    createdBy: string,
    members: seq<string>,
    createdAt: Instant,
    expenses: seq<SharedExpense>,
    totalSpent: int)

  function SumShared(es: seq<SharedExpense>): int {
    if es == [] then 0 else es[0].amount + SumShared(es[1..])
  }

  lemma {:induction false} SumSharedAppend(a: seq<SharedExpense>, b: seq<SharedExpense>)
    ensures SumShared(a + b) == SumShared(a) + SumShared(b)
  {
    if a == [] {
      assert a + b == b;
    } else {
      assert (a + b)[1..] == a[1..] + b;
      SumSharedAppend(a[1..], b);
    }
  }

  /** The ledger invariant: the stored total is the sum of the stored expenses. */
  predicate Balanced(w: Wallet) {
    w.totalSpent == SumShared(w.expenses)
  }

  /** The backend's array-union of one element: appended only when no equal
      element is present. */
  function ArrayUnion(es: seq<SharedExpense>, e: SharedExpense): (r: seq<SharedExpense>)
    ensures e in r
    ensures forall x :: x in es ==> x in r
    ensures forall x :: x in r ==> x in es || x == e
    ensures e in es ==> r == es
    ensures e !in es ==> |r| == |es| + 1 && r[..|es|] == es && r[|es|] == e
  {
    if e in es then es
    else
      assert (es + [e])[..|es|] == es;
      es + [e]
  }

  /** The backend's array-remove of one element: every equal element is
      dropped, the others keep their order. */
  function ArrayRemove(es: seq<SharedExpense>, e: SharedExpense): (r: seq<SharedExpense>)
    ensures e !in r
    ensures forall x :: x in r <==> x in es && x != e
    ensures |r| == |es| - Count(es, e)
    ensures e !in es ==> r == es
  {
    if es == [] then []
    else
      assert es == [es[0]] + es[1..];
      (if es[0] == e then [] else [es[0]]) + ArrayRemove(es[1..], e)
  }

  /** Count of a non-empty list, by its head. */
  lemma CountCons(es: seq<SharedExpense>, e: SharedExpense)
    requires es != []
    ensures Count(es, e) == Count(es[1..], e) + (if es[0] == e then 1 else 0)
  {
    assert es == [es[0]] + es[1..];
    assert multiset(es) == multiset([es[0]]) + multiset(es[1..]);
  }

  /** Removing every copy of `e` takes each copy's amount off the sum. */
  lemma {:induction false} SumAfterRemove(es: seq<SharedExpense>, e: SharedExpense)
    ensures SumShared(ArrayRemove(es, e)) == SumShared(es) - Count(es, e) * e.amount
  {
    if es != [] {
      var rest := es[1..];
      SumAfterRemove(rest, e);
      CountCons(es, e);
      var tail := ArrayRemove(rest, e);
      if es[0] == e {
        assert ArrayRemove(es, e) == tail;
        MultiplySucc(Count(rest, e), e.amount);
      } else {
        assert ArrayRemove(es, e) == [es[0]] + tail;
        SumSharedAppend([es[0]], tail);
      }
    }
  }

  lemma MultiplySucc(c: int, a: int)
    ensures (c + 1) * a == c * a + a
  {
  }

  /** The single update that adds an expense: the union into the stored list
      and a total computed from the wallet as the page last saw it. */
  function AfterAdd(stored: Wallet, seen: Wallet, e: SharedExpense): (w: Wallet)
    ensures e in w.expenses && forall x :: x in w.expenses <==> x in stored.expenses || x == e
    ensures w.totalSpent == seen.totalSpent + e.amount
    ensures w.(expenses := stored.expenses, totalSpent := stored.totalSpent) == stored
  {
    stored.(expenses := ArrayUnion(stored.expenses, e), totalSpent := seen.totalSpent + e.amount)
  }

  /** The single update that deletes an expense. */
  function AfterDelete(stored: Wallet, seen: Wallet, e: SharedExpense): (w: Wallet)
    ensures e !in w.expenses && forall x :: x in w.expenses <==> x in stored.expenses && x != e
    ensures w.totalSpent == seen.totalSpent - e.amount
    ensures w.(expenses := stored.expenses, totalSpent := stored.totalSpent) == stored
  {
    stored.(expenses := ArrayRemove(stored.expenses, e), totalSpent := seen.totalSpent - e.amount)
  }

  /** Adding keeps a balanced wallet balanced exactly when the expense is new
      to the list or carries no amount: a second copy is not stored by the
      union, yet the total still grows. */
  lemma AddKeepsBalance(w: Wallet, e: SharedExpense)
    requires Balanced(w)
    ensures Balanced(AfterAdd(w, w, e)) <==> e !in w.expenses || e.amount == 0
  {
    if e !in w.expenses {
      SumSharedAppend(w.expenses, [e]);
    }
  }

  /** Deleting a listed expense keeps a balanced wallet balanced exactly when
      the list holds no second copy of it (or its amount is zero): the remove
      drops every copy while the total falls by one amount. */
  lemma DeleteKeepsBalance(w: Wallet, e: SharedExpense)
    requires Balanced(w) && e in w.expenses
    ensures Balanced(AfterDelete(w, w, e)) <==> Count(w.expenses, e) == 1 || e.amount == 0
  {
    SumAfterRemove(w.expenses, e);
    var c := Count(w.expenses, e);
    assert c >= 1;
    if c != 1 && e.amount != 0 {
      assert (c - 1) * e.amount != 0;
    }
  }

  /** Deleting an expense that is not (or no longer) in the list changes the
      total but not the list. */
  lemma DeleteAbsentUnbalances(w: Wallet, e: SharedExpense)
    requires Balanced(w) && e !in w.expenses && e.amount != 0
    ensures AfterDelete(w, w, e).expenses == w.expenses
    ensures !Balanced(AfterDelete(w, w, e))
  {
    SumAfterRemove(w.expenses, e);
  }

  /** A total computed from a stale copy of the wallet loses the other
      writer's expense: two members add an expense each from the same copy. */
  lemma StaleCopyLosesAmount(w: Wallet, e1: SharedExpense, e2: SharedExpense)
    requires Balanced(w) && e1 !in w.expenses && e2 !in w.expenses && e1 != e2 && e1.amount != 0
    ensures !Balanced(AfterAdd(AfterAdd(w, w, e1), w, e2))
  {
    var w1 := AfterAdd(w, w, e1);
    SumSharedAppend(w.expenses, [e1]);
    assert e2 !in w1.expenses;
    SumSharedAppend(w1.expenses, [e2]);
  }

  /** A wallet as a page lists it: the document id and its data. */
  datatype WalletEntry = WalletEntry(id: string, data: Wallet)

  /** The backend's error for an update of a document that does not exist. */
  function MissingDocument(id: string): Error {
    Error("not-found", "No document to update: sharedWallets/" + id)
  }

  /** The "sharedWallets" collection, keyed by document id. */
  class WalletCollection {
    var docs: map<string, Wallet>

    predicate AllBalanced()
      reads this
    {
      forall id :: id in docs ==> Balanced(docs[id])
    }

    constructor (initial: map<string, Wallet>)
      ensures docs == initial
    {
      docs := initial;
    }

    /** addDoc under the id the backend chose. */
    method Create(id: string, w: Wallet)
      modifies this
      ensures docs == old(docs)[id := w]
      ensures old(AllBalanced()) && Balanced(w) ==> AllBalanced()
    {
      docs := docs[id := w];
    }

    /** updateDoc of the members field; updateDoc fails on a missing document. */
    method SetMembers(id: string, members: seq<string>, backend: Outcome) returns (r: Outcome)
      modifies this
      ensures r.Succeeded? <==> backend.Succeeded? && id in old(docs)
      ensures backend.Failed? ==> r == backend
      ensures backend.Succeeded? && id !in old(docs) ==> r == Failed(MissingDocument(id))
      ensures r.Succeeded? ==> docs == old(docs)[id := old(docs)[id].(members := members)]
      ensures r.Failed? ==> docs == old(docs)
      ensures old(AllBalanced()) ==> AllBalanced()
    {
      if backend.Failed? {
        return backend;
      }
      if id !in docs {
        return Failed(MissingDocument(id));
      }
      docs := docs[id := docs[id].(members := members)];
      return Succeeded;
    }

    /** updateDoc of an array-union of `e` into the expenses together with the
        total `seen.totalSpent + e.amount`. */
    method AddExpense(id: string, seen: Wallet, e: SharedExpense, backend: Outcome) returns (r: Outcome)
      modifies this
      ensures r.Succeeded? <==> backend.Succeeded? && id in old(docs)
      ensures backend.Failed? ==> r == backend
      ensures backend.Succeeded? && id !in old(docs) ==> r == Failed(MissingDocument(id))
      ensures r.Succeeded? ==> docs == old(docs)[id := AfterAdd(old(docs)[id], seen, e)]
      ensures r.Failed? ==> docs == old(docs)
      ensures old(AllBalanced()) && (id in old(docs) ==> old(docs)[id] == seen) && e !in seen.expenses ==> AllBalanced()
    {
      if backend.Failed? {
        return backend;
      }
      if id !in docs {
        return Failed(MissingDocument(id));
      }
      if AllBalanced() && docs[id] == seen && e !in seen.expenses {
        AddKeepsBalance(seen, e);
      }
      docs := docs[id := AfterAdd(docs[id], seen, e)];
      return Succeeded;
    }

    /** updateDoc of an array-remove of `e` from the expenses together with
        the total `seen.totalSpent - e.amount`. */
    method RemoveExpense(id: string, seen: Wallet, e: SharedExpense, backend: Outcome) returns (r: Outcome)
      modifies this
      ensures r.Succeeded? <==> backend.Succeeded? && id in old(docs)
      ensures backend.Failed? ==> r == backend
      ensures backend.Succeeded? && id !in old(docs) ==> r == Failed(MissingDocument(id))
      ensures r.Succeeded? ==> docs == old(docs)[id := AfterDelete(old(docs)[id], seen, e)]
      ensures r.Failed? ==> docs == old(docs)
      ensures old(AllBalanced()) && (id in old(docs) ==> old(docs)[id] == seen) && Count(seen.expenses, e) == 1 ==> AllBalanced()
    {
      if backend.Failed? {
        return backend;
      }
      if id !in docs {
        return Failed(MissingDocument(id));
      }
      if AllBalanced() && docs[id] == seen && Count(seen.expenses, e) == 1 {
        DeleteKeepsBalance(seen, e);
      }
      docs := docs[id := AfterDelete(docs[id], seen, e)];
      return Succeeded;
    }

    /** deleteDoc: deleting a missing document is not an error. */
    method Delete(id: string, backend: Outcome) returns (r: Outcome)
      modifies this
      ensures r == backend
      ensures r.Succeeded? ==> docs == old(docs) - {id}
      ensures r.Failed? ==> docs == old(docs)
      ensures old(AllBalanced()) ==> AllBalanced()
    {
      if backend.Succeeded? {
        docs := docs - {id};
      }
      return backend;
    }
  }
}
