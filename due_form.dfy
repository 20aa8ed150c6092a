/** The due-customer form (src/components/DueCustomers/DueCustomerForm.tsx): a customer's
    previous due, today's due and deposit, and the running total computed from them. */
module DueForm {
  import opened Seqs
  import opened Types
  import opened Store
  import opened Forms

  datatype DueFormData = DueFormData(
    name: string,
    phone: string,
    previousDue: int,
    todaysDue: int,
    deposit: int,
    dueDate: DateText)

  const EmptyDueForm := DueFormData("", "", 0, 0, 0, "")

  /** The running total shown under the amounts and stored with the customer. */
  function FormTotalDue(d: DueFormData): int
  {
    d.previousDue + d.todaysDue - d.deposit
  }

  /** The inputs, by their `name` attribute. */
  datatype DueField = NameField | PhoneField | PreviousDueField | TodaysDueField | DepositField | DueDateField

  predicate IsAmountField(f: DueField)
  {
    f == PreviousDueField || f == TodaysDueField || f == DepositField
  }

  /** handleChange: the three amounts go through Number(value), every other input is kept
      as typed. */
  function ChangeDueField(d: DueFormData, field: DueField, value: string): (r: DueFormData)
    requires IsAmountField(field) ==> IsNumericInput(value)
  {
    match field
    case NameField => d.(name := value)
    case PhoneField => d.(phone := value)
    case PreviousDueField => d.(previousDue := NumberOf(value))
    case TodaysDueField => d.(todaysDue := NumberOf(value))
    case DepositField => d.(deposit := NumberOf(value))
    case DueDateField => d.(dueDate := value)
  }

  /** An amount typed as the digits of n is read back as n and a text input keeps its
      text; no other input of the form changes. */
  lemma {:induction false} ChangeDueFieldReadBack(d: DueFormData, field: DueField, value: string, n: nat)
    requires IsAmountField(field) ==> value == DecimalText(n)
    ensures IsAmountField(field) ==> IsNumericInput(value)
    ensures field == PreviousDueField ==> ChangeDueField(d, field, value) == d.(previousDue := n)
    ensures field == TodaysDueField ==> ChangeDueField(d, field, value) == d.(todaysDue := n)
    ensures field == DepositField ==> ChangeDueField(d, field, value) == d.(deposit := n)
    ensures field == NameField ==> ChangeDueField(d, field, value) == d.(name := value)
    ensures field == PhoneField ==> ChangeDueField(d, field, value) == d.(phone := value)
    ensures field == DueDateField ==> ChangeDueField(d, field, value) == d.(dueDate := value)
  {
    if IsAmountField(field) {
      NumberOfDigits(n);
    }
  }

  /** The one check of handleSubmit: name, phone and due date must all be filled in. */
  predicate DueFormComplete(d: DueFormData)
  {
    d.name != "" && d.phone != "" && d.dueDate != ""
  }

  /** The constraints the browser checks before handleSubmit runs: name, phone and due date
      are required, and the three amounts have a minimum of 0. */
  predicate DueInputsValid(d: DueFormData)
  {
    DueFormComplete(d) && d.previousDue >= 0 && d.todaysDue >= 0 && d.deposit >= 0
  }

  /** The customer handleSubmit adds: the amounts as entered, the computed total and no
      reminder sent yet. */
  function FormCustomer(d: DueFormData, id: string): (c: DueCustomer)
    ensures c.id == id && c.name == d.name && c.phone == d.phone && c.dueDate == d.dueDate
    ensures c.previousDue == d.previousDue && c.todaysDue == d.todaysDue && c.deposit == d.deposit
    ensures CustomerBalanced(c)
    ensures !c.reminderSent
  {
    DueCustomer(id, d.name, d.phone, d.previousDue, d.todaysDue, d.deposit, FormTotalDue(d), d.dueDate, false)
  }

  /** A deposit larger than the dues is not rejected: the customer is stored with a
      negative total, i.e. as owed money. */
  lemma {:induction false} OverpaidCustomerAccepted(d: DueFormData, id: string)
    requires DueFormComplete(d) && d.deposit > d.previousDue + d.todaysDue
    ensures FormCustomer(d, id).totalDue < 0
  {
  }

  /** A customer that reaches the store has non-negative amounts, so its total lies between
      minus the deposit and the sum of its two dues. */
  lemma {:induction false} SubmittedCustomerBounds(d: DueFormData, id: string)
    requires DueInputsValid(d)
    ensures FormCustomer(d, id).previousDue >= 0 && FormCustomer(d, id).todaysDue >= 0 && FormCustomer(d, id).deposit >= 0
    ensures -d.deposit <= FormCustomer(d, id).totalDue <= d.previousDue + d.todaysDue
  {
  }

  /** Adding customers through the form keeps every running total consistent. */
  lemma {:induction false} FormKeepsCustomersBalanced(customers: seq<DueCustomer>, d: DueFormData, id: string)
    requires forall i :: 0 <= i < |customers| ==> CustomerBalanced(customers[i])
    ensures forall i :: 0 <= i < |customers| + 1 ==> CustomerBalanced((customers + [FormCustomer(d, id)])[i])
  {
    var after := customers + [FormCustomer(d, id)];
    forall i | 0 <= i < |after|
      ensures CustomerBalanced(after[i])
    {
      if i < |customers| {
        assert after[i] == customers[i];
      }
    }
  }

  class DueEntry {
    var data: DueFormData

    constructor ()
      ensures data == EmptyDueForm
    {
      data := EmptyDueForm;
    }

    method Change(field: DueField, value: string)
      requires IsAmountField(field) ==> IsNumericInput(value)
      modifies this
      ensures data == ChangeDueField(old(data), field, value)
    {
      data := ChangeDueField(data, field, value);
    }

    /** Submitting: the browser checks the inputs' constraints, then handleSubmit checks
        that the form is complete. A form that fails either changes nothing; otherwise
        exactly one customer is appended. */
    method Submit(store: DataStore, id: string) returns (ok: bool)
      modifies store
      ensures ok <==> DueInputsValid(data)
      ensures !ok ==> store.State() == old(store.State())
      ensures ok ==> store.State() == old(store.State()).(dueCustomers := old(store.dueCustomers) + [FormCustomer(data, id)])
    {
      ok := DueInputsValid(data) && DueFormComplete(data);
      if ok {
        store.AddDueCustomer(FormCustomer(data, id));
      }
    }
  }
}
