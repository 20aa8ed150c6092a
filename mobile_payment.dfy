/** The mobile-banking desk (src/components/MobilePayment/MobilePayment.tsx): today's mobile
    payments and their counts, the payment a clerk records for a student, and the
    newest-first history panel. */
module MobilePayment {
  import opened Seqs
  import opened Types
  import opened Store

  /** How many older lines the history keeps behind a new one (`prev.slice(0, 4)`). */
  const KeptLines: nat := 4

  /** The smallest amount the desk accepts. */
  const MinimumAmount: int := 10

  /** The amounts the live feed picks from. */
  const FeedAmounts: seq<int> := [100, 200, 300, 500, 1000]

  /** One line of the history panel. */
  datatype HistoryLine = HistoryLine(stamp: int, student: string, amount: int, via: PaymentMethod,
                                     time: string, status: PaymentStatus)

  predicate TodayMobile(today: DateText, p: Payment)
  {
    p.date == today && IsMobile(p.via)
  }

  function TodayMobileIs(today: DateText): Payment -> bool
  {
    (p: Payment) => TodayMobile(today, p)
  }

  /** todayMobilePayments: today's payments made with one of the four mobile methods. */
  function TodayMobilePayments(payments: seq<Payment>, today: DateText): (r: seq<Payment>)
    ensures forall p :: p in r <==> p in payments && p.date == today && IsMobile(p.via)
    ensures |r| <= |payments|
  {
    FilterMembers(payments, TodayMobileIs(today));
    Filter(payments, TodayMobileIs(today))
  }

  /** totalMobilePayments */
  function TodayMobileTotal(payments: seq<Payment>, today: DateText): int
  {
    Sum(TodayMobilePayments(payments, today), PaymentAmount)
  }

  /** successfulPayments */
  function SuccessfulCount(payments: seq<Payment>, today: DateText): nat
  {
    |Filter(TodayMobilePayments(payments, today), KeyIs(PaymentStatusOf, Completed))|
  }

  /** pendingPayments */
  function PendingCount(payments: seq<Payment>, today: DateText): nat
  {
    |Filter(TodayMobilePayments(payments, today), KeyIs(PaymentStatusOf, Pending))|
  }

  /** Completed and pending payments together never outnumber today's mobile payments
      (failed ones make up the difference). */
  lemma {:induction false} StatusCountsBounded(payments: seq<Payment>, today: DateText)
    ensures SuccessfulCount(payments, today) + PendingCount(payments, today) <= |TodayMobilePayments(payments, today)|
  {
    FilterDisjointCount(TodayMobilePayments(payments, today), KeyIs(PaymentStatusOf, Completed), KeyIs(PaymentStatusOf, Pending));
  }

  datatype MobileError = Incomplete | BelowMinimum

  /** The checks of handlePayment: `!selectedStudent || !amount || !transactionId`, then
      `amount < 10`. A negative amount passes the first check and fails the second. */
  function ValidateMobile(studentId: string, amount: int, transactionId: string): (r: Option<MobileError>)
    ensures r == Some(Incomplete) <==> studentId == "" || amount == 0 || transactionId == ""
    ensures r == Some(BelowMinimum) <==> studentId != "" && amount != 0 && transactionId != "" && amount < MinimumAmount
    ensures r.None? <==> studentId != "" && transactionId != "" && amount >= MinimumAmount
  {
    if studentId == "" || amount == 0 || transactionId == "" then Some(Incomplete)
    else if amount < MinimumAmount then Some(BelowMinimum)
    else None
  }

  /** The payment handlePayment records: completed, dated today, with the transaction id. */
  function DeskPayment(studentId: string, amount: int, via: MobileMethod, transactionId: string,
                       id: string, today: DateText): (p: Payment)
    ensures p.id == id && p.studentId == studentId && p.amount == amount && p.via == via
    ensures p.transactionId == Some(transactionId) && p.date == today && p.status == Completed
  {
    Payment(id, studentId, amount, via, Some(transactionId), today, Completed)
  }

  /** A recorded desk payment is one more of today's mobile payments, and one more completed one. */
  lemma {:induction false} DeskPaymentCountsToday(payments: seq<Payment>, p: Payment, today: DateText)
    requires p.date == today && IsMobile(p.via) && p.status == Completed
    ensures TodayMobilePayments(payments + [p], today) == TodayMobilePayments(payments, today) + [p]
    ensures SuccessfulCount(payments + [p], today) == SuccessfulCount(payments, today) + 1
    ensures TodayMobileTotal(payments + [p], today) == TodayMobileTotal(payments, today) + p.amount
  {
    FilterAppendOne(payments, p, TodayMobileIs(today));
    var before := TodayMobilePayments(payments, today);
    FilterAppendOne(before, p, KeyIs(PaymentStatusOf, Completed));
    SumAppend(before, [p], PaymentAmount);
  }

  /** `student?.name || 'Unknown'`: the name of the student with that id, when there is one
      and it is not empty. */
  function NameOrUnknown(students: seq<Student>, studentId: string): (name: string)
    ensures FindIndex(students, StudentIdIs(studentId)).None? ==> name == "Unknown"
  {
    match FindIndex(students, StudentIdIs(studentId))
    case None => "Unknown"
    case Some(k) => if students[k].name == "" then "Unknown" else students[k].name
  }

  /** What one press of the pay button did. */
  datatype PayOutcome = Rejected(error: MobileError) | NetworkFailure | Paid

  /** The desk's own state. */
  class Desk {
    var selectedStudent: string
    var amount: int
    var via: MobileMethod
    var transactionId: string
    var history: seq<HistoryLine>

    ghost predicate Valid()
      reads this
    {
      |history| <= KeptLines + 1
    }

    constructor ()
      ensures selectedStudent == "" && amount == 0 && via == Bkash && transactionId == "" && history == []
      ensures Valid()
    {
      selectedStudent := "";
      amount := 0;
      via := Bkash;
      transactionId := "";
      history := [];
    }

    /** The student select, the amount input or a quick-amount button, the method radio and
        the transaction-id input. */
    method Fill(studentId: string, amt: int, m: MobileMethod, txId: string)
      modifies this
      ensures selectedStudent == studentId && amount == amt && via == m && transactionId == txId
      ensures history == old(history)
    {
      selectedStudent, amount, via, transactionId := studentId, amt, m, txId;
    }

    /** handlePayment. `failureDraw` is the `Math.random()` of the simulated network failure,
        which fires above 0.9. A rejection or a failure records nothing and keeps the form;
        success records one completed payment, adds a history line and clears the form but
        not the method. */
    method Pay(store: DataStore, failureDraw: real, id: string, today: DateText, stamp: int, time: string)
      returns (outcome: PayOutcome)
      requires Valid()
      modifies this, store
      ensures Valid()
      ensures old(ValidateMobile(selectedStudent, amount, transactionId)).Some? ==>
        outcome == Rejected(old(ValidateMobile(selectedStudent, amount, transactionId)).value)
      ensures old(ValidateMobile(selectedStudent, amount, transactionId)).None? && failureDraw > 0.9 ==> outcome == NetworkFailure
      ensures old(ValidateMobile(selectedStudent, amount, transactionId)).None? && failureDraw <= 0.9 ==> outcome == Paid
      ensures outcome != Paid ==>
        store.State() == old(store.State()) &&
        selectedStudent == old(selectedStudent) && amount == old(amount) && transactionId == old(transactionId) &&
        history == old(history)
      ensures outcome == Paid ==>
        store.State() == RecordPayment(old(store.State()),
          DeskPayment(old(selectedStudent), old(amount), old(via), old(transactionId), id, today)) &&
        history == PushRecent(old(history),
          HistoryLine(stamp, NameOrUnknown(old(store.students), old(selectedStudent)), old(amount), old(via), time, Completed),
          KeptLines) &&
        selectedStudent == "" && amount == 0 && transactionId == ""
      ensures via == old(via)
    {
      var err := ValidateMobile(selectedStudent, amount, transactionId);
      if err.Some? {
        return Rejected(err.value);
      }
      if failureDraw > 0.9 {
        return NetworkFailure;
      }
      var name := NameOrUnknown(store.students, selectedStudent);
      store.AddPayment(DeskPayment(selectedStudent, amount, via, transactionId, id, today));
      history := PushRecent(history, HistoryLine(stamp, name, amount, via, time, Completed), KeptLines);
      selectedStudent, amount, transactionId := "", 0, "";
      return Paid;
    }

    /** One tick of the live feed: above 0.8 a made-up completed line for a drawn student,
        amount and method is added to the history (nothing is recorded in the store).
        The source reads the drawn student's name, so it needs at least one student. */
    method FeedTick(students: seq<Student>, draw: real, pick: nat, amountPick: nat, m: MobileMethod, stamp: int, time: string)
      requires Valid()
      requires draw > 0.8 ==> pick < |students| && amountPick < |FeedAmounts|
      modifies this
      ensures Valid()
      ensures draw <= 0.8 ==> history == old(history)
      ensures draw > 0.8 ==>
        history == PushRecent(old(history),
          HistoryLine(stamp, students[pick].name, FeedAmounts[amountPick], m, time, Completed), KeptLines)
      ensures selectedStudent == old(selectedStudent) && amount == old(amount) && via == old(via)
      ensures transactionId == old(transactionId)
    {
      if draw > 0.8 {
        history := PushRecent(history, HistoryLine(stamp, students[pick].name, FeedAmounts[amountPick], m, time, Completed), KeptLines);
      }
    }
  }
}
