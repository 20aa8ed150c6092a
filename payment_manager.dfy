/** The payments screen (src/components/Payments/PaymentManager.tsx): the search and
    filter of the list, the headline totals and the per-method report. */
module PaymentManager {
  import opened Seqs
  import opened Types

  /** The six methods in the order the report lists them. */
  const AllMethods: seq<PaymentMethod> := [Bkash, Nagad, Rocket, Upay, Cash, Bank]

  /** The search box: the payer's name or roll, or the transaction id, contains the search
      text, ignoring case. A payer find() cannot resolve and a missing transaction id
      both leave their part false (`undefined`). */
  predicate SearchHit(students: seq<Student>, search: string, p: Payment)
  {
    var k := FindIndex(students, StudentIdIs(p.studentId));
    (k.Some? && (MatchesText(students[k.value].name, search) || MatchesText(students[k.value].roll, search)))
    || (p.transactionId.Some? && MatchesText(p.transactionId.value, search))
  }

  /** One row passes the search, the method filter and the status filter. */
  predicate Shown(students: seq<Student>, search: string, via: Choice<PaymentMethod>, status: Choice<PaymentStatus>, p: Payment)
  {
    SearchHit(students, search, p) && Chosen(via, p.via) && Chosen(status, p.status)
  }

  function ShownBy(students: seq<Student>, search: string, via: Choice<PaymentMethod>, status: Choice<PaymentStatus>): Payment -> bool
  {
    (p: Payment) => Shown(students, search, via, status, p)
  }

  /** filteredPayments: the payments that pass all three tests, in their order. */
  function FilteredPayments(students: seq<Student>, payments: seq<Payment>, search: string,
                            via: Choice<PaymentMethod>, status: Choice<PaymentStatus>): (r: seq<Payment>)
    ensures |r| <= |payments|
    ensures forall p :: p in r <==> p in payments && Shown(students, search, via, status, p)
  {
    FilterMembers(payments, ShownBy(students, search, via, status));
    Filter(payments, ShownBy(students, search, via, status))
  }

  /** A payment whose student is unknown and which has no transaction id is never listed,
      not even with an empty search. */
  lemma {:induction false} OrphanNeverShown(students: seq<Student>, payments: seq<Payment>, search: string,
                                            via: Choice<PaymentMethod>, status: Choice<PaymentStatus>, p: Payment)
    requires forall i :: 0 <= i < |students| ==> students[i].id != p.studentId
    requires p.transactionId.None?
    ensures p !in FilteredPayments(students, payments, search, via, status)
  {
  }

  /** With an empty search and both filters on 'all', every payment of a known student is listed. */
  lemma {:induction false} EmptySearchShowsKnown(students: seq<Student>, payments: seq<Payment>, p: Payment, i: nat)
    requires p in payments && i < |students| && students[i].id == p.studentId
    ensures p in FilteredPayments(students, payments, "", All, All)
  {
    var k := FindIndex(students, StudentIdIs(p.studentId));
    IncludesEmpty(Lower(students[k.value].name));
    assert Lower("") == "";
  }

  /** totalPayments: every amount, whatever the status. */
  function TotalPayments(payments: seq<Payment>): int
  {
    Sum(payments, PaymentAmount)
  }

  /** pendingPayments */
  function PendingCount(payments: seq<Payment>): nat
  {
    |Filter(payments, KeyIs(PaymentStatusOf, Pending))|
  }

  /** todayTotal */
  function TodayTotal(payments: seq<Payment>, today: DateText): int
  {
    Sum(Filter(payments, PaymentDateIs(today)), PaymentAmount)
  }

  /** mobilePaymentTotal */
  function MobileTotal(payments: seq<Payment>): int
  {
    Sum(Filter(payments, IsMobilePayment), PaymentAmount)
  }

  /** One entry of the report's `methods` object. */
  function MethodTotal(payments: seq<Payment>, m: PaymentMethod): int
  {
    KeyTotal(payments, PaymentVia, PaymentAmount, m)
  }

  /** The report's `methods` object. */
  datatype MethodTotals = MethodTotals(bkash: int, nagad: int, rocket: int, upay: int, cash: int, bank: int)

  function MethodReport(payments: seq<Payment>): MethodTotals
  {
    MethodTotals(MethodTotal(payments, Bkash), MethodTotal(payments, Nagad), MethodTotal(payments, Rocket),
                 MethodTotal(payments, Upay), MethodTotal(payments, Cash), MethodTotal(payments, Bank))
  }

  /** Every method is one of the six. */
  lemma {:induction false} MethodListed(m: PaymentMethod)
    ensures m in AllMethods
  {
    match m
    case Bkash => assert AllMethods[0] == m;
    case Nagad => assert AllMethods[1] == m;
    case Rocket => assert AllMethods[2] == m;
    case Upay => assert AllMethods[3] == m;
    case Cash => assert AllMethods[4] == m;
    case Bank => assert AllMethods[5] == m;
  }

  /** The six per-method totals add up to totalPayments, since every payment has one of
      the six methods. */
  lemma {:induction false} MethodReportAddsUp(payments: seq<Payment>)
    ensures var t := MethodReport(payments);
      t.bkash + t.nagad + t.rocket + t.upay + t.cash + t.bank == TotalPayments(payments)
  {
    forall i | 0 <= i < |payments| ensures PaymentVia(payments[i]) in AllMethods {
      MethodListed(payments[i].via);
    }
    SumByKeysAll(payments, PaymentVia, PaymentAmount, AllMethods);
    SixKeys(payments, PaymentVia, PaymentAmount, Bkash, Nagad, Rocket, Upay, Cash, Bank);
  }

  /** mobilePaymentTotal is exactly the bKash, Nagad, Rocket and Upay totals together. */
  lemma {:induction false} MobileTotalIsFourMethods(payments: seq<Payment>)
    ensures var t := MethodReport(payments);
      MobileTotal(payments) == t.bkash + t.nagad + t.rocket + t.upay
  {
    var mobile := Filter(payments, IsMobilePayment);
    var four := [Bkash, Nagad, Rocket, Upay];
    forall i | 0 <= i < |mobile| ensures PaymentVia(mobile[i]) in four {
      assert IsMobile(mobile[i].via);
    }
    SumByKeysAll(mobile, PaymentVia, PaymentAmount, four);
    FourKeys(mobile, PaymentVia, PaymentAmount, Bkash, Nagad, Rocket, Upay);
    MobileKeyTotal(payments, Bkash);
    MobileKeyTotal(payments, Nagad);
    MobileKeyTotal(payments, Rocket);
    MobileKeyTotal(payments, Upay);
  }

  /** Restricting to mobile payments first does not change a mobile method's total. */
  lemma {:induction false} MobileKeyTotal(payments: seq<Payment>, m: PaymentMethod)
    requires IsMobile(m)
    ensures KeyTotal(Filter(payments, IsMobilePayment), PaymentVia, PaymentAmount, m) == MethodTotal(payments, m)
  {
    FilterFilter(payments, IsMobilePayment, KeyIs(PaymentVia, m));
    FilterSame(payments, And(IsMobilePayment, KeyIs(PaymentVia, m)), KeyIs(PaymentVia, m));
  }

  /** The report's filtered data: count and total of the listed rows. */
  lemma {:induction false} FilteredCountBounded(students: seq<Student>, payments: seq<Payment>, search: string,
                                                via: Choice<PaymentMethod>, status: Choice<PaymentStatus>)
    ensures |FilteredPayments(students, payments, search, via, status)| <= |payments|
    ensures search == "" && via.All? && status.All? && (forall i :: 0 <= i < |payments| ==> payments[i].transactionId.Some?)
            ==> FilteredPayments(students, payments, search, via, status) == payments
  {
    if search == "" && via.All? && status.All? && (forall i :: 0 <= i < |payments| ==> payments[i].transactionId.Some?) {
      AllShown(students, payments);
    }
  }

  lemma {:induction false} AllShown(students: seq<Student>, payments: seq<Payment>)
    requires forall i :: 0 <= i < |payments| ==> payments[i].transactionId.Some?
    ensures Filter(payments, ShownBy(students, "", All, All)) == payments
  {
    if payments != [] {
      IncludesEmpty(Lower(payments[0].transactionId.value));
      assert Lower("") == "";
      assert forall i :: 0 <= i < |payments[1..]| ==> payments[1..][i] == payments[i + 1];
      AllShown(students, payments[1..]);
      assert payments == [payments[0]] + payments[1..];
    }
  }
}
