/** The cash entry form (src/components/CashTracking/CashEntryForm.tsx): money in or out
    of the cash box, with its source and description; money out is stored negative. */
module CashForm {
  import opened Seqs
  import opened Types
  import opened Store
  import opened Forms

  /** The form's income / expense radio buttons. */
  datatype CashKind = Income | Outgo

  /** The source select holds '' (nothing chosen) or one of the six sources. */
  datatype CashFormData = CashFormData(source: Option<CashSource>, amount: int, description: string, kind: CashKind)

  /** The form as opened: amount 0, no description, the given type and source; opened
      without them it is an income with no source. */
  function InitialCashForm(kind: CashKind, source: Option<CashSource>): (d: CashFormData)
    ensures d.amount == 0 && d.description == "" && d.kind == kind && d.source == source
  {
    CashFormData(source, 0, "", kind)
  }

  const DefaultCashForm := InitialCashForm(Income, None)

  datatype CashFormField = AmountField | DescriptionField

  /** handleChange on the amount (Number(value)) and the description (as typed). */
  function ChangeCashField(d: CashFormData, field: CashFormField, value: string): (r: CashFormData)
    requires field == AmountField ==> IsNumericInput(value)
  {
    match field
    case AmountField => d.(amount := NumberOf(value))
    case DescriptionField => d.(description := value)
  }

  /** The amount field keeps the number typed and the description the text typed;
      the source and the type never change through these fields. */
  lemma {:induction false} ChangeCashFieldReadBack(d: CashFormData, field: CashFormField, value: string, n: nat)
    requires field == AmountField ==> value == DecimalText(n)
    ensures field == AmountField ==> IsNumericInput(value) && ChangeCashField(d, field, value) == d.(amount := n)
    ensures field == DescriptionField ==> ChangeCashField(d, field, value) == d.(description := value)
  {
    if field == AmountField {
      NumberOfDigits(n);
    }
  }

  datatype CashError = MissingField | BadAmount

  /** The checks of handleSubmit in their order. */
  function ValidateCash(d: CashFormData): (r: Option<CashError>)
    ensures r == Some(MissingField) <==> d.source.None? || d.description == ""
    ensures r == Some(BadAmount) <==> d.source.Some? && d.description != "" && d.amount <= 0
    ensures r.None? <==> d.source.Some? && d.description != "" && d.amount > 0
  {
    if d.source.None? || d.description == "" then Some(MissingField)
    else if d.amount <= 0 then Some(BadAmount)
    else None
  }

  /** finalAmount: money out is stored with a minus sign. */
  function SignedAmount(kind: CashKind, amount: int): int
  {
    if kind == Outgo then -amount else amount
  }

  /** Which way the money went, read back from a stored amount. */
  function KindOfAmount(stored: int): CashKind
  {
    if stored < 0 then Outgo else Income
  }

  function Abs(x: int): (r: int)
    ensures r >= 0 && (r == x || r == -x)
  {
    if x < 0 then -x else x
  }

  /** For a positive amount the sign of the stored amount gives back the type and its
      absolute value gives back the amount. */
  lemma {:induction false} SignRoundTrip(kind: CashKind, amount: int)
    requires amount > 0
    ensures KindOfAmount(SignedAmount(kind, amount)) == kind
    ensures Abs(SignedAmount(kind, amount)) == amount
  {
  }

  /** The entry handleSubmit stores, dated today. */
  function FormCashEntry(d: CashFormData, id: string, today: DateText): (c: CashEntry)
    requires d.source.Some?
    ensures c.id == id && c.source == d.source.value && c.description == d.description && c.date == today
    ensures c.amount == SignedAmount(d.kind, d.amount)
  {
    CashEntry(id, d.source.value, SignedAmount(d.kind, d.amount), d.description, today)
  }

  /** An accepted entry is never zero: an income is positive and an expense negative. */
  lemma {:induction false} AcceptedEntrySign(d: CashFormData, id: string, today: DateText)
    requires ValidateCash(d).None?
    ensures FormCashEntry(d, id, today).amount != 0
    ensures d.kind == Income <==> FormCashEntry(d, id, today).amount > 0
    ensures d.kind == Outgo <==> FormCashEntry(d, id, today).amount < 0
  {
  }

  class CashEntryForm {
    var data: CashFormData

    constructor (kind: CashKind, source: Option<CashSource>)
      ensures data == InitialCashForm(kind, source)
    {
      data := InitialCashForm(kind, source);
    }

    method Change(field: CashFormField, value: string)
      requires field == AmountField ==> IsNumericInput(value)
      modifies this
      ensures data == ChangeCashField(old(data), field, value)
    {
      data := ChangeCashField(data, field, value);
    }

    /** The type radio buttons and the source select. */
    method Choose(kind: CashKind, source: Option<CashSource>)
      modifies this
      ensures data == old(data).(kind := kind, source := source)
    {
      data := data.(kind := kind, source := source);
    }

    /** handleSubmit: a rejected form changes nothing; an accepted one appends one entry. */
    method Submit(store: DataStore, id: string, today: DateText) returns (err: Option<CashError>)
      modifies store
      ensures err == ValidateCash(data)
      ensures err.Some? ==> store.State() == old(store.State())
      ensures err.None? ==>
        store.State() == old(store.State()).(cashEntries := old(store.cashEntries) + [FormCashEntry(data, id, today)])
    {
      err := ValidateCash(data);
      if err.None? {
        store.AddCashEntry(FormCashEntry(data, id, today));
      }
    }
  }
}
