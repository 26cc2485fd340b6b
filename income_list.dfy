/** The income table's delete confirmation: select an income, confirm (which
    waits for the store) or cancel (refused while waiting). */
module IncomeList {
  import opened Common
  import opened Records
  import opened ExpenseStore

  const DeleteFailed := "Failed to delete income. Please try again."

  /** The dialog's state fields; `pending` is the income the waiting
      removeIncome call was given. */
  datatype IncomeDialogView = IncomeDialogView(
    deleteDialogOpen: bool,
    selectedIncome: Option<Transaction>,
    error: string,
    loading: bool,
    pending: Option<Transaction>)

  class IncomeListPage {
    const store: Store
    var deleteDialogOpen: bool
    var selectedIncome: Option<Transaction>
    var error: string
    var loading: bool
    var pending: Option<Transaction>

    function View(): IncomeDialogView
      reads this
    {
      IncomeDialogView(deleteDialogOpen, selectedIncome, error, loading, pending)
    }

    /** A waiting delete always has its income. */
    predicate Valid()
      reads this
    {
      loading ==> pending.Some?
    }

    constructor (s: Store)
      ensures store == s && View() == IncomeDialogView(false, None, "", false, None) && Valid()
    {
      store := s;
      deleteDialogOpen := false;
      selectedIncome := None;
      error := "";
      loading := false;
      pending := None;
    }

    /** handleDeleteClick: the row's delete button, enabled at all times. */
    method HandleDeleteClick(income: Transaction)
      modifies this
      ensures View() == old(View()).(selectedIncome := Some(income), deleteDialogOpen := true)
      ensures old(Valid()) ==> Valid()
    {
      selectedIncome := Some(income);
      deleteDialogOpen := true;
    }

    /** handleDeleteConfirm up to its await: with nothing selected the dialog
        just closes; otherwise loading starts and the selected income's id
        goes to removeIncome. The confirm button is disabled while loading. */
    method BeginDeleteConfirm() returns (started: bool)
      requires !loading
      modifies this
      ensures started <==> old(selectedIncome).Some?
      ensures !started ==> View() == old(View()).(deleteDialogOpen := false)
      ensures started ==> View() == old(View()).(loading := true, pending := old(selectedIncome))
      ensures Valid()
    {
      if selectedIncome.None? {
        deleteDialogOpen := false;
        return false;
      }
      loading := true;
      pending := selectedIncome;
      return true;
    }

    /** handleDeleteConfirm after its await: success closes the dialog and
        clears the selection and the error; failure keeps the dialog open
        with a message. Loading ends either way. */
    method CompleteDeleteConfirm(backend: Outcome)
      requires loading && Valid()
      modifies this, store
      ensures var id := old(pending).value.id;
              var ok := old(store.currentUser).Some? && id != "" && backend.Succeeded?;
              (ok ==> View() == old(View()).(deleteDialogOpen := false, selectedIncome := None, error := "", loading := false)
                      && store.State() == old(store.State()).(incomes := WithoutId(old(store.incomes), id)))
              && (!ok ==> View() == old(View()).(error := DeleteFailed, loading := false)
                          && store.State() == old(store.State()))
      ensures !loading && Valid()
    {
      var r := store.RemoveIncome(pending.value.id, backend);
      if r.Succeeded? {
        deleteDialogOpen := false;
        selectedIncome := None;
        error := "";
      } else {
        error := DeleteFailed;
      }
      loading := false;
    }

    /** handleDeleteCancel: ignored while a delete is waiting; otherwise the
        dialog closes and the selection and error are cleared. */
    method HandleDeleteCancel()
      modifies this
      ensures old(loading) ==> View() == old(View())
      ensures !old(loading) ==> View() == old(View()).(deleteDialogOpen := false, selectedIncome := None, error := "")
      ensures old(Valid()) ==> Valid()
    {
      if loading {
        return;
      }
      deleteDialogOpen := false;
      selectedIncome := None;
      error := "";
    }
  }
}
