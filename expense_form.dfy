/** The expense form (src/components/Expenses/ExpenseForm.tsx): the computed total price,
    the submission checks, adding a new expense or updating the one being edited, and
    the prefill of the edit mode. */
module ExpenseForm {
  import opened Seqs
  import opened Types
  import opened Store
  import opened Forms

  datatype ExpenseFormData = ExpenseFormData(
    category: string, item: string, quantity: int, unitPrice: int, supplierId: string, description: string)

  /** The initial form: one unit at price 0. */
  const EmptyExpenseForm := ExpenseFormData("", "", 1, 0, "", "")

  /** quantity × unitPrice */
  function Product(quantity: int, unitPrice: int): int
  {
    quantity * unitPrice
  }

  /** totalPrice of the form. */
  function FormTotal(d: ExpenseFormData): int
  {
    Product(d.quantity, d.unitPrice)
  }

  /** Positive quantity and price give a positive total that is at least each of them. */
  lemma {:induction false} ProductPositive(quantity: int, unitPrice: int)
    requires quantity > 0 && unitPrice > 0
    ensures Product(quantity, unitPrice) > 0
    ensures Product(quantity, unitPrice) >= quantity && Product(quantity, unitPrice) >= unitPrice
  {
    assert Product(quantity, unitPrice) == quantity * (unitPrice - 1) + quantity;
    assert Product(quantity, unitPrice) == (quantity - 1) * unitPrice + unitPrice;
  }

  datatype ExpenseField = CategoryField | ItemField | QuantityField | UnitPriceField | SupplierField | DescriptionField

  predicate IsNumericField(f: ExpenseField) { f == QuantityField || f == UnitPriceField }

  /** handleChange: quantity and unitPrice through Number(value), the rest as typed. */
  function ChangeExpenseField(d: ExpenseFormData, field: ExpenseField, value: string): (r: ExpenseFormData)
    requires IsNumericField(field) ==> IsNumericInput(value)
  {
    match field
    case CategoryField => d.(category := value)
    case ItemField => d.(item := value)
    case QuantityField => d.(quantity := NumberOf(value))
    case UnitPriceField => d.(unitPrice := NumberOf(value))
    case SupplierField => d.(supplierId := value)
    case DescriptionField => d.(description := value)
  }

  /** Typing the decimal text of n into quantity or price stores n; the other fields store the text. */
  lemma {:induction false} ChangeExpenseFieldReadBack(d: ExpenseFormData, field: ExpenseField, value: string, n: nat)
    requires IsNumericField(field) ==> value == DecimalText(n)
    ensures IsNumericField(field) ==> IsNumericInput(value)
    ensures field == QuantityField ==> ChangeExpenseField(d, field, value) == d.(quantity := n)
    ensures field == UnitPriceField ==> ChangeExpenseField(d, field, value) == d.(unitPrice := n)
    ensures field == CategoryField ==> ChangeExpenseField(d, field, value) == d.(category := value)
    ensures field == ItemField ==> ChangeExpenseField(d, field, value) == d.(item := value)
    ensures field == SupplierField ==> ChangeExpenseField(d, field, value) == d.(supplierId := value)
    ensures field == DescriptionField ==> ChangeExpenseField(d, field, value) == d.(description := value)
  {
    if IsNumericField(field) {
      NumberOfDigits(n);
    }
  }

  datatype ExpenseError = MissingField | BadQuantityOrPrice

  /** The checks of handleSubmit in their order. */
  function ValidateExpense(d: ExpenseFormData): (r: Option<ExpenseError>)
    ensures r == Some(MissingField) <==> d.category == "" || d.item == ""
    ensures r == Some(BadQuantityOrPrice) <==> d.category != "" && d.item != "" && (d.quantity <= 0 || d.unitPrice <= 0)
    ensures r.None? <==> d.category != "" && d.item != "" && d.quantity > 0 && d.unitPrice > 0
  {
    if d.category == "" || d.item == "" then Some(MissingField)
    else if d.quantity <= 0 || d.unitPrice <= 0 then Some(BadQuantityOrPrice)
    else None
  }

  /** The new expense handleSubmit adds: dated today, empty supplier and description missing. */
  function NewExpense(d: ExpenseFormData, id: string, today: DateText): (e: Expense)
    ensures e.id == id && e.category == d.category && e.item == d.item && e.date == today
    ensures e.quantity == d.quantity && e.unitPrice == d.unitPrice && e.totalPrice == FormTotal(d)
    ensures e.supplierId == OrUndefined(d.supplierId) && e.description == OrUndefined(d.description)
  {
    Expense(id, d.category, d.item, d.quantity, d.unitPrice, FormTotal(d), OrUndefined(d.supplierId), today,
            OrUndefined(d.description))
  }

  /** The partial record handleSubmit passes to updateExpense: every field but the date. */
  function EditPatch(d: ExpenseFormData): (p: ExpensePatch)
    ensures p.date.None?
  {
    ExpensePatch(Some(d.category), Some(d.item), Some(d.quantity), Some(d.unitPrice), Some(FormTotal(d)),
                 Some(OrUndefined(d.supplierId)), None, Some(OrUndefined(d.description)))
  }

  /** The edit-mode prefill from the stored expense. */
  function Prefill(e: Expense): (d: ExpenseFormData)
    ensures d.category == e.category && d.item == e.item && d.quantity == e.quantity && d.unitPrice == e.unitPrice
    ensures d.supplierId == OrEmpty(e.supplierId) && d.description == OrEmpty(e.description)
  {
    ExpenseFormData(e.category, e.item, e.quantity, e.unitPrice, OrEmpty(e.supplierId), OrEmpty(e.description))
  }

  /** Saving a prefilled form unchanged gives the stored expense back, when its total
      already was quantity × unitPrice and its optional texts were not empty. */
  lemma {:induction false} PrefillRoundTrip(e: Expense)
    requires e.totalPrice == Product(e.quantity, e.unitPrice)
    requires e.supplierId != Some("") && e.description != Some("")
    ensures MergeExpense(EditPatch(Prefill(e)))(e) == e
  {
  }

  /** An edit changes only the edited expense, keeps its date and stores the recomputed total. */
  lemma {:induction false} EditOnlyTouchesTarget(es: seq<Expense>, editId: string, d: ExpenseFormData, i: nat)
    requires i < |es|
    ensures |MapWhere(es, ExpenseIdIs(editId), MergeExpense(EditPatch(d)))| == |es|
    ensures es[i].id != editId ==> MapWhere(es, ExpenseIdIs(editId), MergeExpense(EditPatch(d)))[i] == es[i]
    ensures es[i].id == editId ==>
      var e := MapWhere(es, ExpenseIdIs(editId), MergeExpense(EditPatch(d)))[i];
      e.id == editId && e.date == es[i].date && e.totalPrice == FormTotal(d) &&
      e.quantity == d.quantity && e.unitPrice == d.unitPrice && e.category == d.category && e.item == d.item
  {
  }

  /** The form component: its fields, and the id of the expense being edited (`editExpenseId`;
      an empty id is not an edit). */
  class ExpenseEntry {
    var data: ExpenseFormData
    const editId: Option<string>

    /** The form as mounted, after the prefill effect: the stored expense's fields when
        it edits one that exists, otherwise the empty form. */
    constructor (expenses: seq<Expense>, editId: Option<string>)
      ensures this.editId == editId
      ensures editId.Some? && editId.value != "" && FindIndex(expenses, ExpenseIdIs(editId.value)).Some? ==>
        data == Prefill(expenses[FindIndex(expenses, ExpenseIdIs(editId.value)).value])
      ensures !(editId.Some? && editId.value != "" && FindIndex(expenses, ExpenseIdIs(editId.value)).Some?) ==>
        data == EmptyExpenseForm
    {
      this.editId := editId;
      var found: Option<nat> := None;
      if editId.Some? && editId.value != "" {
        found := FindIndex(expenses, ExpenseIdIs(editId.value));
      }
      data := if found.Some? then Prefill(expenses[found.value]) else EmptyExpenseForm;
    }

    method Change(field: ExpenseField, value: string)
      requires IsNumericField(field) ==> IsNumericInput(value)
      modifies this
      ensures data == ChangeExpenseField(old(data), field, value)
    {
      data := ChangeExpenseField(data, field, value);
    }

    /** handleSubmit: a rejected form changes nothing; in edit mode the edited expense is
        updated, otherwise a new one is appended. */
    method Submit(store: DataStore, id: string, today: DateText) returns (err: Option<ExpenseError>)
      modifies store
      ensures err == ValidateExpense(data)
      ensures err.Some? ==> store.State() == old(store.State())
      ensures err.None? && editId.Some? && editId.value != "" ==>
        store.State() == old(store.State()).(expenses := MapWhere(old(store.expenses), ExpenseIdIs(editId.value), MergeExpense(EditPatch(data))))
      ensures err.None? && !(editId.Some? && editId.value != "") ==>
        store.State() == old(store.State()).(expenses := old(store.expenses) + [NewExpense(data, id, today)])
    {
      err := ValidateExpense(data);
      if err.None? {
        if editId.Some? && editId.value != "" {
          store.UpdateExpense(editId.value, EditPatch(data));
        } else {
          store.AddExpense(NewExpense(data, id, today));
        }
      }
    }
  }
}
