/**
 * The personal expense list: add puts a new expense first, edit replaces by
 * id, delete filters by id; the form is reset after every submit.
 */
module PersonalExpenses {
  import opened Options
  import opened RecordList

  datatype Expense = Expense(id: string, category: string, paymentMode: string, date: string, description: string, amount: real)

  /** The form state; `amount` is None while the amount input is empty, `date` while no date is picked. */
  datatype ExpenseForm = ExpenseForm(category: string, paymentMode: string, date: Option<string>, description: string, amount: Option<real>)

  const EmptyForm := ExpenseForm("", "", None, "", None)

  function ExpenseId(e: Expense): string { e.id }

  /**
   * `newExpense` in `handleSubmit`: the fields of the form; the edited
   * expense's id unless that is missing or empty; a missing date is stored
   * as the empty string.
   */
  function NewExpense(form: ExpenseForm, editing: Option<Expense>, freshId: string): (e: Expense)
    requires form.amount.Some?
    ensures e.id == if editing.Some? && editing.value.id != "" then editing.value.id else freshId
    ensures e.date == if form.date.Some? then form.date.value else ""
    ensures e.category == form.category && e.paymentMode == form.paymentMode
    ensures e.description == form.description && e.amount == form.amount.value
  {
    Expense(if editing.Some? && editing.value.id != "" then editing.value.id else freshId,
            form.category, form.paymentMode,
            if form.date.Some? then form.date.value else "",
            form.description, form.amount.value)
  }

  /** The form `handleEdit` fills in from an expense. */
  function FormFromExpense(e: Expense): ExpenseForm {
    ExpenseForm(e.category, e.paymentMode, if e.date != "" then Some(e.date) else None, e.description, Some(e.amount))
  }

  /** Editing an expense and resubmitting the form unchanged gives back the same expense. */
  lemma EditResubmitRoundTrip(e: Expense, freshId: string)
    requires e.id != ""
    ensures NewExpense(FormFromExpense(e), Some(e), freshId) == e
  {
  }

  /** The list after submit: an edit replaces the records carrying the edited id, an add prepends. */
  function Submitted(expenses: seq<Expense>, editing: Option<Expense>, e: Expense): (r: seq<Expense>)
    ensures editing.None? ==> |r| == |expenses| + 1 && r[0] == e && r[1..] == expenses
    ensures editing.Some? ==> |r| == |expenses|
    ensures editing.Some? ==> forall i :: 0 <= i < |r| ==> r[i] == if expenses[i].id == editing.value.id then e else expenses[i]
  {
    if editing.Some? then ReplaceMatching(expenses, ExpenseId, editing.value.id, e) else [e] + expenses
  }

  /** Adding an expense under an id no other expense has, then deleting that id, restores the list. */
  lemma AddThenDelete(expenses: seq<Expense>, form: ExpenseForm, freshId: string)
    requires form.amount.Some?
    requires forall i :: 0 <= i < |expenses| ==> expenses[i].id != freshId
    ensures RemoveMatching(Submitted(expenses, None, NewExpense(form, None, freshId)), ExpenseId, freshId) == expenses
  {
    PrependThenRemove(NewExpense(form, None, freshId), expenses, ExpenseId);
  }

  const SeedExpenses := [
    Expense("1", "Food", "Credit Card", "2024-01-20", "Lunch at downtown cafe", 15.50),
    Expense("2", "Transport", "Debit Card", "2024-01-19", "Gas station", 45.75)
  ]

  /** The component's state cells and its handlers. */
  class ExpenseList {
    var expenses: seq<Expense>
    var showForm: bool
    var editingExpense: Option<Expense>
    var form: ExpenseForm

    constructor ()
      ensures expenses == SeedExpenses && !showForm && editingExpense == None && form == EmptyForm
    {
      expenses := SeedExpenses;
      showForm := false;
      editingExpense := None;
      form := EmptyForm;
    }

    /** The "Add" button. */
    method OpenForm()
      modifies this
      ensures showForm
      ensures expenses == old(expenses) && editingExpense == old(editingExpense) && form == old(form)
    {
      showForm := true;
    }

    /** The form's field bindings (category, payment mode, date picker, amount, description). */
    method FillForm(f: ExpenseForm)
      modifies this
      ensures form == f
      ensures expenses == old(expenses) && showForm == old(showForm) && editingExpense == old(editingExpense)
    {
      form := f;
    }

    /** `handleSubmit`, reachable only with an amount entered (the input is required). */
    method Submit(freshId: string)
      requires form.amount.Some?
      modifies this
      ensures expenses == Submitted(old(expenses), old(editingExpense), NewExpense(old(form), old(editingExpense), freshId))
      ensures form == EmptyForm && !showForm && editingExpense == None
    {
      var e := NewExpense(form, editingExpense, freshId);
      expenses := Submitted(expenses, editingExpense, e);
      ResetForm();
    }

    /** `resetForm`, also the "Cancel" button. */
    method ResetForm()
      modifies this
      ensures form == EmptyForm && !showForm && editingExpense == None
      ensures expenses == old(expenses)
    {
      form := EmptyForm;
      showForm := false;
      editingExpense := None;
    }

    /** `handleEdit` */
    method HandleEdit(e: Expense)
      modifies this
      ensures form == FormFromExpense(e) && editingExpense == Some(e) && showForm
      ensures expenses == old(expenses)
    {
      form := FormFromExpense(e);
      editingExpense := Some(e);
      showForm := true;
    }

    /** `handleDelete` */
    method HandleDelete(id: string)
      modifies this
      ensures expenses == RemoveMatching(old(expenses), ExpenseId, id)
      ensures form == old(form) && showForm == old(showForm) && editingExpense == old(editingExpense)
    {
      expenses := RemoveMatching(expenses, ExpenseId, id);
    }
  }
}
