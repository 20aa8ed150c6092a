/** The payment entry form of the payments screen (src/components/Payments/PaymentForm.tsx):
    its fields, the three submission checks and the payment handed to the store. */
module PaymentForm {
  import opened Seqs
  import opened Types
  import opened Store
  import opened Forms

  datatype PaymentFormData = PaymentFormData(
    studentId: string, amount: int, via: PaymentMethod, transactionId: string, description: string)

  /** The initial form: no student, amount 0, bKash. */
  const EmptyPaymentForm := PaymentFormData("", 0, Bkash, "", "")

  /** The text inputs of the form; the method is chosen with radio buttons. */
  datatype PaymentField = StudentIdField | AmountField | TransactionIdField | DescriptionField

  /** handleChange: the named field takes the typed text; the amount takes the number
      the text denotes instead. */
  function ChangePaymentField(d: PaymentFormData, field: PaymentField, value: string): (r: PaymentFormData)
    requires field == AmountField ==> IsNumericInput(value)
  {
    match field
    case StudentIdField => d.(studentId := value)
    case AmountField => d.(amount := NumberOf(value))
    case TransactionIdField => d.(transactionId := value)
    case DescriptionField => d.(description := value)
  }

  /** A text field stores the text as typed, the amount stores the number typed (the decimal
      text of n gives back n), and the method and every other field keep their values. */
  lemma {:induction false} ChangePaymentFieldReadBack(d: PaymentFormData, field: PaymentField, value: string, n: nat)
    requires field == AmountField ==> value == DecimalText(n)
    ensures field == AmountField ==> IsNumericInput(value)
    ensures field == AmountField ==> ChangePaymentField(d, field, value) == d.(amount := n)
    ensures field == StudentIdField ==> ChangePaymentField(d, field, value) == d.(studentId := value)
    ensures field == TransactionIdField ==> ChangePaymentField(d, field, value) == d.(transactionId := value)
    ensures field == DescriptionField ==> ChangePaymentField(d, field, value) == d.(description := value)
  {
    if field == AmountField {
      NumberOfDigits(n);
    }
  }

  datatype PaymentError = NoStudent | BadAmount | NoTransactionId

  /** The checks of handleSubmit in their order; the first failing one is reported. */
  function ValidatePayment(d: PaymentFormData): (r: Option<PaymentError>)
    ensures r == Some(NoStudent) <==> d.studentId == ""
    ensures r == Some(BadAmount) <==> d.studentId != "" && d.amount <= 0
    ensures r == Some(NoTransactionId) <==> d.studentId != "" && d.amount > 0 && IsMobile(d.via) && d.transactionId == ""
    ensures r.None? <==> d.studentId != "" && d.amount > 0 && (IsMobile(d.via) ==> d.transactionId != "")
  {
    if d.studentId == "" then Some(NoStudent)
    else if d.amount <= 0 then Some(BadAmount)
    else if IsMobile(d.via) && d.transactionId == "" then Some(NoTransactionId)
    else None
  }

  /** The payment handleSubmit builds: completed, dated today, an empty transaction id
      stored as a missing one; the description is not stored. */
  function FormPayment(d: PaymentFormData, id: string, today: DateText): (p: Payment)
    ensures p.id == id && p.studentId == d.studentId && p.amount == d.amount && p.via == d.via
    ensures p.date == today && p.status == Completed
    ensures p.transactionId.None? <==> d.transactionId == ""
    ensures p.transactionId.Some? ==> p.transactionId.value == d.transactionId
  {
    Payment(id, d.studentId, d.amount, d.via, OrUndefined(d.transactionId), today, Completed)
  }

  /** A form the handler accepts always yields a positive completed payment, and a mobile
      one always carries its transaction id. The handler alone would let a bank payment
      through without its reference; the browser's check below stops that. */
  lemma {:induction false} AcceptedPaymentShape(d: PaymentFormData, id: string, today: DateText)
    requires ValidatePayment(d).None?
    ensures FormPayment(d, id, today).amount > 0
    ensures IsMobile(d.via) ==> FormPayment(d, id, today).transactionId.Some?
    ensures FormPayment(d, id, today).status == Completed
  {
  }

  /** The constraints the browser checks before handleSubmit runs: the student select and
      the amount are required, the amount is at least 1, and the reference input, shown for
      the mobile methods and for bank, is required. */
  predicate PaymentInputsValid(d: PaymentFormData)
  {
    d.studentId != "" && d.amount >= 1 && (IsMobile(d.via) || d.via == Bank ==> d.transactionId != "")
  }

  /** The browser's constraints are the handler's checks plus a reference for bank. */
  lemma {:induction false} PaymentInputsValidIff(d: PaymentFormData)
    ensures PaymentInputsValid(d) <==> ValidatePayment(d).None? && (d.via == Bank ==> d.transactionId != "")
  {
  }

  /** A form that reaches the store yields a positive completed payment, and a mobile or
      bank payment always carries its transaction id or reference. */
  lemma {:induction false} SubmittedPaymentShape(d: PaymentFormData, id: string, today: DateText)
    requires PaymentInputsValid(d)
    ensures FormPayment(d, id, today).amount > 0
    ensures IsMobile(d.via) || d.via == Bank ==> FormPayment(d, id, today).transactionId == Some(d.transactionId)
    ensures d.via == Cash ==> (FormPayment(d, id, today).transactionId.None? <==> d.transactionId == "")
    ensures FormPayment(d, id, today).status == Completed
  {
  }

  /** With distinct student ids, submitting a valid form raises the chosen student's
      balance by exactly the amount, so strictly. */
  lemma {:induction false} SubmittedPaymentCredits(db: Db, d: PaymentFormData, id: string, today: DateText, i: nat)
    requires ValidatePayment(d).None?
    requires UniqueIds(db.students) && i < |db.students| && db.students[i].id == d.studentId
    ensures i < |RecordPayment(db, FormPayment(d, id, today)).students|
    ensures RecordPayment(db, FormPayment(d, id, today)).students[i].balance == db.students[i].balance + d.amount
    ensures RecordPayment(db, FormPayment(d, id, today)).students[i].balance > db.students[i].balance
  {
    CreditPaymentAt(db.students, d.studentId, d.amount, i);
  }

  /** The form component's state. */
  class PaymentEntry {
    var data: PaymentFormData

    constructor ()
      ensures data == EmptyPaymentForm
    {
      data := EmptyPaymentForm;
    }

    method Change(field: PaymentField, value: string)
      requires field == AmountField ==> IsNumericInput(value)
      modifies this
      ensures data == ChangePaymentField(old(data), field, value)
    {
      data := ChangePaymentField(data, field, value);
    }

    /** The method radio buttons (handleChange with name 'method'). */
    method ChooseMethod(m: PaymentMethod)
      modifies this
      ensures data == old(data).(via := m)
    {
      data := data.(via := m);
    }

    /** Submitting: the browser checks the inputs' constraints, then handleSubmit runs its
        own checks. A form that fails either records nothing; otherwise exactly its
        payment is recorded. */
    method Submit(store: DataStore, id: string, today: DateText) returns (ok: bool)
      modifies store
      ensures ok <==> PaymentInputsValid(data)
      ensures !ok ==> store.State() == old(store.State())
      ensures ok ==> store.State() == RecordPayment(old(store.State()), FormPayment(data, id, today))
    {
      PaymentInputsValidIff(data);
      ok := PaymentInputsValid(data) && ValidatePayment(data).None?;
      if ok {
        store.AddPayment(FormPayment(data, id, today));
      }
    }
  }
}
