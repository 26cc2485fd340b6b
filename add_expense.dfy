/** The add-expense dialog: a form whose fields change one at a time, a
    submit that checks the required fields and then waits for the store, and
    a close that is refused while the submit is waiting. */
module AddExpenseDialog {
  import opened Common
  import opened Records
  import opened ExpenseStore

  const RequiredFields := "Please fill in all required fields"

  /** The date field is not among the fields the submit checks. */
  predicate RequiredFilled(f: EntryForm) {
    f.amount.Entered? && f.category != "" && f.description != ""
  }

  /** One input's change event: the named field takes the new value. */
  datatype FieldChange =
    | AmountChange(amount: AmountField)
    | CategoryChange(category: string)
    | DescriptionChange(description: string)
    | DateChange(date: Option<Date>)

  /** handleChange: `{...prev, [name]: value}`. */
  function Changed(f: EntryForm, ch: FieldChange): EntryForm {
    match ch
    case AmountChange(a) => f.(amount := a)
    case CategoryChange(c) => f.(category := c)
    case DescriptionChange(d) => f.(description := d)
    case DateChange(d) => f.(date := d)
  }

  /** The change that would set the field `ch` names to its value in `f`. */
  function FieldOf(f: EntryForm, ch: FieldChange): FieldChange {
    match ch
    case AmountChange(_) => AmountChange(f.amount)
    case CategoryChange(_) => CategoryChange(f.category)
    case DescriptionChange(_) => DescriptionChange(f.description)
    case DateChange(_) => DateChange(f.date)
  }

  /** A change leaves the form as it was exactly when its field already held
      the value, changing a field twice keeps only the last value, and changes to two different fields commute. */
  lemma ChangeSetsOneField(f: EntryForm, ch: FieldChange, later: FieldChange)
    ensures Changed(f, ch) == f <==> FieldOf(f, ch) == ch
    ensures SameField(ch, later) ==> Changed(Changed(f, ch), later) == Changed(f, later)
    ensures !SameField(ch, later) ==> Changed(Changed(f, ch), later) == Changed(Changed(f, later), ch)
  {
  }

  predicate SameField(a: FieldChange, b: FieldChange) {
    (a.AmountChange? && b.AmountChange?) || (a.CategoryChange? && b.CategoryChange?)
    || (a.DescriptionChange? && b.DescriptionChange?) || (a.DateChange? && b.DateChange?)
  }

  /** The dialog's own state fields. `submitted` is the form data the
      waiting addExpense call was given; `closeRequested` records that the
      parent's onClose was called. */
  datatype DialogView = DialogView(
    formData: EntryForm,
    submitted: EntryForm,
    loading: bool,
    error: string,
    closeRequested: bool)

  class AddExpenseForm {
    const store: Store
    var formData: EntryForm
    var submitted: EntryForm
    var loading: bool
    var error: string
    var closeRequested: bool

    function View(): DialogView
      reads this
    {
      DialogView(formData, submitted, loading, error, closeRequested)
    }

    constructor (s: Store, today: Date)
      ensures store == s
      ensures View() == DialogView(EmptyEntry(today), EmptyEntry(today), false, "", false)
    {
      store := s;
      formData := EmptyEntry(today);
      submitted := EmptyEntry(today);
      loading := false;
      error := "";
      closeRequested := false;
    }

    /** handleChange. */
    method HandleChange(ch: FieldChange)
      modifies this
      ensures View() == old(View()).(formData := Changed(old(formData), ch))
    {
      formData := Changed(formData, ch);
    }

    /** handleSubmit up to its await: the error is cleared and loading set;
        a missing required field ends the submit there with an error. When
        `started` is true the addExpense call is waiting. The submit button
        is disabled while loading. */
    method BeginSubmit() returns (started: bool)
      requires !loading
      modifies this
      ensures started <==> RequiredFilled(old(formData))
      ensures !started ==> View() == old(View()).(error := RequiredFields, loading := false)
      ensures started ==> View() == old(View()).(error := "", loading := true, submitted := old(formData))
    {
      error := "";
      loading := true;
      if !RequiredFilled(formData) {
        error := RequiredFields;
        loading := false;
        return false;
      }
      submitted := formData;
      started := true;
    }

    /** handleSubmit after its await. Success empties the form and closes
        the dialog; a failure shows the thrown message. Loading ends either
        way. */
    method CompleteSubmit(backend: Outcome, newId: string, today: Date)
      requires loading && RequiredFilled(submitted)
      modifies this, store
      ensures old(store.currentUser).None? ==>
                View() == old(View()).(error := NotAuthenticated.message, loading := false)
                && store.State() == old(store.State())
      ensures old(store.currentUser).Some? && backend.Failed? ==>
                View() == old(View()).(error := backend.error.message, loading := false)
                && store.State() == old(store.State())
      ensures old(store.currentUser).Some? && backend.Succeeded? ==>
                View() == old(View()).(formData := EmptyEntry(today), closeRequested := true, loading := false)
                && store.State() == old(store.State()).(expenses := old(store.expenses)
                                                         + [NewRecord(DraftOf(old(submitted)), old(store.currentUser).value, newId)])
      ensures !loading
    {
      var added := store.AddExpense(DraftOf(submitted), backend, newId);
      if added.Err? {
        error := added.error.message;
      } else {
        formData := EmptyEntry(today);
        closeRequested := true;
      }
      loading := false;
    }

    /** The dialog's close (backdrop, escape or Cancel) is ignored while the
        submit is waiting. */
    method RequestClose()
      modifies this
      ensures old(loading) ==> View() == old(View())
      ensures !old(loading) ==> View() == old(View()).(closeRequested := true)
    {
      if !loading {
        closeRequested := true;
      }
    }
  }

  /** A full submit never stores a record without the required fields, and
      stores exactly the submitted one. */
  method SubmitOnce(d: AddExpenseForm, backend: Outcome, newId: string, today: Date) returns (started: bool)
    requires !d.loading
    modifies d, d.store
    ensures !started ==> d.store.State() == old(d.store.State())
    ensures |d.store.expenses| != |old(d.store.expenses)| ==>
              started && RequiredFilled(old(d.formData)) && old(d.store.currentUser).Some?
              && d.store.expenses == old(d.store.expenses) + [NewRecord(DraftOf(old(d.formData)), old(d.store.currentUser).value, newId)]
    ensures !d.loading
  {
    started := d.BeginSubmit();
    if started {
      d.CompleteSubmit(backend, newId, today);
    }
  }
}
