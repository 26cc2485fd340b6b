/** The stand-alone category manager dialog. It works on a single category
    list through `addCategory` and `deleteCategory`; the handlers decide
    which of those calls to make, and the list is given to the dialog. */
module CategoryManager {
  import opened Common
  import opened Grouping

  /** The call a handler makes on the category list. */
  datatype ListCall = NoCall | AddCategory(name: string) | DeleteCategory(name: string)

  /** The one name the dialog refuses to delete. */
  const Protected := "Others"

  const EmptyName := "Category name cannot be empty"
  const AlreadyExists := "Category already exists"
  const CannotDelete := "Cannot delete 'Others' category"

  /** The list after the call is carried out. */
  function Apply(categories: seq<string>, call: ListCall): seq<string> {
    match call
    case NoCall => categories
    case AddCategory(name) => categories + [name]
    case DeleteCategory(name) => Filter(c => c != name, categories)
  }

  /** A list without duplicates keeps that property under every call the
      dialog makes, and "Others", once listed, stays listed. */
  lemma {:induction false} ApplyKeepsListClean(categories: seq<string>, call: ListCall)
    requires Distinct(categories)
    requires call.AddCategory? ==> call.name !in categories
    requires call.DeleteCategory? ==> call.name != Protected
    ensures Distinct(Apply(categories, call))
    ensures Protected in categories ==> Protected in Apply(categories, call)
  {
    match call
    case NoCall =>
    case AddCategory(name) =>
    case DeleteCategory(name) =>
      FilterKeepsDistinct(c => c != name, categories);
  }

  lemma {:induction false} FilterKeepsDistinct(p: string -> bool, s: seq<string>)
    requires Distinct(s)
    ensures Distinct(Filter(p, s))
  {
    if s != [] {
      assert Distinct(s[1..]) by {
        forall i, j | 0 <= i < j < |s| - 1 ensures s[1..][i] != s[1..][j] {
          assert s[1..][i] == s[i + 1] && s[1..][j] == s[j + 1];
        }
      }
      FilterKeepsDistinct(p, s[1..]);
      assert s[0] !in s[1..] by {
        forall k | 0 <= k < |s| - 1 ensures s[1..][k] != s[0] {
          assert s[1..][k] == s[k + 1];
        }
      }
    }
  }

  /** The dialog's own state fields. */
  datatype ManagerView = ManagerView(newCategory: string, error: string)

  class ManagerDialog {
    /** The category list as the dialog is given it. */
    const categories: seq<string>
    var newCategory: string
    var error: string

    function View(): ManagerView
      reads this
    {
      ManagerView(newCategory, error)
    }

    constructor (list: seq<string>)
      ensures categories == list && View() == ManagerView("", "")
    {
      categories := list;
      newCategory := "";
      error := "";
    }

    /** Typing in the name field also clears the error. */
    method Type(text: string)
      modifies this
      ensures View() == ManagerView(text, "")
    {
      newCategory := text;
      error := "";
    }

    /** handleAddCategory: a blank name and a name already listed are refused
        with an error; otherwise the trimmed name is added, the field cleared
        and the error cleared. */
    method HandleAddCategory() returns (call: ListCall)
      modifies this
      ensures Trim(old(newCategory)) == "" ==> call == NoCall && View() == old(View()).(error := EmptyName)
      ensures Trim(old(newCategory)) != "" && Trim(old(newCategory)) in categories ==>
                call == NoCall && View() == old(View()).(error := AlreadyExists)
      ensures Trim(old(newCategory)) != "" && Trim(old(newCategory)) !in categories ==>
                call == AddCategory(Trim(old(newCategory))) && View() == ManagerView("", "")
      ensures call.AddCategory? ==> call.name !in categories && call.name != ""
    {
      var name := Trim(newCategory);
      if name == "" {
        error := EmptyName;
        return NoCall;
      }
      if name in categories {
        error := AlreadyExists;
        return NoCall;
      }
      call := AddCategory(name);
      newCategory := "";
      error := "";
    }

    /** handleDeleteCategory: "Others" is refused with an error; any other
        name is deleted. */
    method HandleDeleteCategory(category: string) returns (call: ListCall)
      modifies this
      ensures category == Protected ==> call == NoCall && View() == old(View()).(error := CannotDelete)
      ensures category != Protected ==> call == DeleteCategory(category) && View() == old(View())
    {
      if category == Protected {
        error := CannotDelete;
        return NoCall;
      }
      call := DeleteCategory(category);
    }
  }
}
