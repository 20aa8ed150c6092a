/** The student's own payment page (src/components/MobilePayment/StudentPaymentPortal.tsx):
    the logged-in student is found by name, and a payment of at least 50 with a
    transaction id is credited to them. */
module StudentPortal {
  import opened Seqs
  import opened Types
  import opened Store

  /** The smallest amount a student may pay. */
  const PortalMinimum: int := 50

  function StudentNameIs(name: string): Student -> bool
  {
    (s: Student) => s.name == name
  }

  /** studentData: the first student whose name is the user's name; nobody without a user. */
  function PayingStudent(students: seq<Student>, user: Option<User>): (k: Option<nat>)
    ensures k.Some? ==> user.Some? && k.value < |students| && students[k.value].name == user.value.name
    ensures k.Some? ==> forall j :: 0 <= j < k.value ==> students[j].name != user.value.name
    ensures k.None? <==> user.None? || forall j :: 0 <= j < |students| ==> students[j].name != user.value.name
  {
    if user.None? then None else FindIndex(students, StudentNameIs(user.value.name))
  }

  datatype PortalError = TooSmall | NoTransactionId | NoStudent

  /** The checks of handlePayment in their order: `!amount || amount < 50`, the transaction
      id, then the student lookup. */
  function ValidatePortal(amount: int, transactionId: string, student: Option<nat>): (r: Option<PortalError>)
    ensures r == Some(TooSmall) <==> amount < PortalMinimum
    ensures r == Some(NoTransactionId) <==> amount >= PortalMinimum && transactionId == ""
    ensures r == Some(NoStudent) <==> amount >= PortalMinimum && transactionId != "" && student.None?
    ensures r.None? <==> amount >= PortalMinimum && transactionId != "" && student.Some?
  {
    if amount == 0 || amount < PortalMinimum then Some(TooSmall)
    else if transactionId == "" then Some(NoTransactionId)
    else if student.None? then Some(NoStudent)
    else None
  }

  /** The payment the page records for the student. */
  function PortalPayment(s: Student, amount: int, via: MobileMethod, transactionId: string,
                         id: string, today: DateText): (p: Payment)
    ensures p.id == id && p.studentId == s.id && p.amount == amount && p.via == via
    ensures p.transactionId == Some(transactionId) && p.date == today && p.status == Completed
  {
    Payment(id, s.id, amount, via, Some(transactionId), today, Completed)
  }

  /** With distinct ids, an accepted payment raises the paying student's balance by the
      amount, at least 50. */
  lemma {:induction false} PortalPaymentCredits(db: Db, user: Option<User>, amount: int, via: MobileMethod,
                                                transactionId: string, id: string, today: DateText)
    requires UniqueIds(db.students)
    requires ValidatePortal(amount, transactionId, PayingStudent(db.students, user)).None?
    ensures var k := PayingStudent(db.students, user).value;
      var after := RecordPayment(db, PortalPayment(db.students[k], amount, via, transactionId, id, today));
      k < |after.students| &&
      after.students[k].balance == db.students[k].balance + amount &&
      after.students[k].balance >= db.students[k].balance + PortalMinimum
  {
    var k := PayingStudent(db.students, user).value;
    CreditPaymentAt(db.students, db.students[k].id, amount, k);
  }

  /** The page's own state. */
  class Portal {
    var via: MobileMethod
    var amount: int
    var transactionId: string

    constructor ()
      ensures via == Bkash && amount == 0 && transactionId == ""
    {
      via := Bkash;
      amount := 0;
      transactionId := "";
    }

    method Fill(m: MobileMethod, amt: int, txId: string)
      modifies this
      ensures via == m && amount == amt && transactionId == txId
    {
      via, amount, transactionId := m, amt, txId;
    }

    /** handlePayment: a rejection records nothing and keeps the form; success records one
        completed payment for the logged-in student and clears amount and transaction id. */
    method Pay(store: DataStore, user: Option<User>, id: string, today: DateText) returns (err: Option<PortalError>)
      modifies this, store
      ensures err == old(ValidatePortal(amount, transactionId, PayingStudent(store.students, user)))
      ensures err.Some? ==> store.State() == old(store.State()) && amount == old(amount) && transactionId == old(transactionId)
      ensures err.None? ==>
        var k := PayingStudent(old(store.students), user).value;
        store.State() == RecordPayment(old(store.State()),
          PortalPayment(old(store.students)[k], old(amount), old(via), old(transactionId), id, today)) &&
        amount == 0 && transactionId == ""
      ensures via == old(via)
    {
      var k := PayingStudent(store.students, user);
      err := ValidatePortal(amount, transactionId, k);
      if err.None? {
        store.AddPayment(PortalPayment(store.students[k.value], amount, via, transactionId, id, today));
        amount, transactionId := 0, "";
      }
    }
  }
}
