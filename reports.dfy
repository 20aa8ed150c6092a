/** The reports screen (src/components/Reports/ReportsManager.tsx): the records of a date
    range, the income and expense totals, the attendance figures, the per-category and
    per-method maps and the top payers. The range's first and last day are parameters. */
module Reports {
  import opened Seqs
  import opened Types
  import opened Store
  import opened StudentList
  import opened CashForm
  import opened CashManager
  import opened PaymentManager
  import opened ExpenseManager

  /** `start <= date && date <= end`, as string comparisons: both ends are included. */
  predicate InRange(start: DateText, end: DateText, date: DateText)
  {
    TextLe(start, date) && TextLe(date, end)
  }

  /** A one-day range holds exactly that day. */
  lemma {:induction false} SingleDayRange(day: DateText, date: DateText)
    ensures InRange(day, day, date) <==> date == day
  {
    TextLeRefl(day);
    if InRange(day, day, date) {
      TextLeAntisym(day, date);
    }
  }

  function PaymentInRange(start: DateText, end: DateText): Payment -> bool { (p: Payment) => InRange(start, end, p.date) }
  function ExpenseInRange(start: DateText, end: DateText): Expense -> bool { (e: Expense) => InRange(start, end, e.date) }
  function AttendanceInRange(start: DateText, end: DateText): Attendance -> bool { (a: Attendance) => InRange(start, end, a.date) }
  function CashInRange(start: DateText, end: DateText): CashEntry -> bool { (c: CashEntry) => InRange(start, end, c.date) }

  /** filteredPayments */
  function PeriodPayments(payments: seq<Payment>, start: DateText, end: DateText): (r: seq<Payment>)
    ensures forall p :: p in r <==> p in payments && InRange(start, end, p.date)
  {
    FilterMembers(payments, PaymentInRange(start, end));
    Filter(payments, PaymentInRange(start, end))
  }

  /** filteredExpenses */
  function PeriodExpenses(expenses: seq<Expense>, start: DateText, end: DateText): (r: seq<Expense>)
    ensures forall e :: e in r <==> e in expenses && InRange(start, end, e.date)
  {
    FilterMembers(expenses, ExpenseInRange(start, end));
    Filter(expenses, ExpenseInRange(start, end))
  }

  /** filteredAttendance */
  function PeriodAttendance(att: seq<Attendance>, start: DateText, end: DateText): (r: seq<Attendance>)
    ensures forall a :: a in r <==> a in att && InRange(start, end, a.date)
  {
    FilterMembers(att, AttendanceInRange(start, end));
    Filter(att, AttendanceInRange(start, end))
  }

  /** filteredCashEntries */
  function PeriodCash(entries: seq<CashEntry>, start: DateText, end: DateText): (r: seq<CashEntry>)
    ensures forall c :: c in r <==> c in entries && InRange(start, end, c.date)
  {
    FilterMembers(entries, CashInRange(start, end));
    Filter(entries, CashInRange(start, end))
  }

  /** The "today" report takes exactly today's payments, so its payment total is the
      payments screen's and the dashboard's total for today. */
  lemma {:induction false} TodayReportIsTodayTotal(payments: seq<Payment>, today: DateText)
    ensures PeriodPayments(payments, today, today) == Filter(payments, PaymentDateIs(today))
    ensures TotalPayments(PeriodPayments(payments, today, today)) == TodayTotal(payments, today)
  {
    forall i | 0 <= i < |payments|
      ensures PaymentInRange(today, today)(payments[i]) == PaymentDateIs(today)(payments[i])
    {
      SingleDayRange(today, payments[i].date);
    }
    FilterSame(payments, PaymentInRange(today, today), PaymentDateIs(today));
  }

  /** The headline figures of the report. */
  datatype ReportTotals = ReportTotals(payments: int, expenses: int, cashIncome: int, cashExpense: int, net: int)

  function Totals(db: Db, start: DateText, end: DateText): (t: ReportTotals)
    ensures t.cashIncome >= 0 && t.cashExpense >= 0
    ensures t.net == t.payments - t.expenses + TotalCash(PeriodCash(db.cashEntries, start, end))
  {
    var cash := PeriodCash(db.cashEntries, start, end);
    var payments := TotalPayments(PeriodPayments(db.payments, start, end));
    var expenses := TotalExpenses(PeriodExpenses(db.expenses, start, end));
    CashBalances(cash);
    ReportTotals(payments, expenses, TotalIncome(cash), TotalOutgo(cash),
                 payments + TotalIncome(cash) - expenses - TotalOutgo(cash))
  }

  /** The attendance figures: records in the range, how many say present, and the rate in
      percent. */
  datatype AttendanceFigures = AttendanceFigures(records: nat, present: nat, rate: real)

  function AttendanceStats(att: seq<Attendance>, start: DateText, end: DateText): (f: AttendanceFigures)
    ensures f.records == |PeriodAttendance(att, start, end)|
    ensures f.present <= f.records
    ensures f.records == 0 ==> f.rate == 0.0
    ensures 0.0 <= f.rate <= 100.0
    ensures f.rate == 100.0 <==> f.records > 0 && f.present == f.records
  {
    var period := PeriodAttendance(att, start, end);
    var present := |Filter(period, IsPresent)|;
    if |period| > 0 then
      RatePercent(present, |period|);
      AttendanceFigures(|period|, present, (present as real / |period| as real) * 100.0)
    else
      AttendanceFigures(0, present, 0.0)
  }

  /** present / records * 100 lies between 0 and 100 and is 100 only when every record
      says present. */
  lemma {:induction false} RatePercent(present: nat, records: nat)
    requires 0 < records && present <= records
    ensures 0.0 <= (present as real / records as real) * 100.0 <= 100.0
    ensures (present as real / records as real) * 100.0 == 100.0 <==> present == records
  {
    var p, r := present as real, records as real;
    var q := p / r;
    assert q * r == p;
    SignOfProduct(q, r);
    SignOfProduct(q - 1.0, r);
    assert (q - 1.0) * r == p - r;
    if q == 1.0 {
      assert p == r;
    }
    if present == records {
      assert q == 1.0;
    }
  }

  /** A product with a positive factor has the sign of the other factor. */
  lemma {:induction false} SignOfProduct(a: real, r: real)
    requires r > 0.0
    ensures a < 0.0 ==> a * r < 0.0
    ensures a > 0.0 ==> a * r > 0.0
  {
  }

  // ---------------------------------------------------------------------------
  // The chart maps: objects built by a reduce, kept as association lists in insertion order.

  /** expensesByCategory, over every expense whatever the range. */
  function CategoryMap(expenses: seq<Expense>): seq<(string, int)>
  {
    Tally(expenses, ExpenseCategory, ExpenseTotal)
  }

  /** The category map names each category once, holds under each the category's total,
      and its values add up to the total price of all expenses. */
  lemma {:induction false} CategoryMapAddsUp(expenses: seq<Expense>)
    ensures DistinctKeys(CategoryMap(expenses))
    ensures SumValues(CategoryMap(expenses)) == TotalExpenses(expenses)
    ensures forall c :: ValueOf(CategoryMap(expenses), c) == CategoryTotal(expenses, c)
  {
    TallyFacts(expenses, ExpenseCategory, ExpenseTotal);
  }

  /** The stored name of a payment method. */
  function MethodName(m: PaymentMethod): string
  {
    match m
    case Bkash => "bkash"
    case Nagad => "nagad"
    case Rocket => "rocket"
    case Upay => "upay"
    case Cash => "cash"
    case Bank => "bank"
  }

  /** The chart's label: bKash, Nagad and cash get Bengali names, the others keep theirs. */
  function MethodLabel(m: PaymentMethod): string
  {
    match m
    case Bkash => "বিকাশ"
    case Nagad => "নগদ"
    case Cash => "ক্যাশ"
    case _ => MethodName(m)
  }

  function PaymentLabel(p: Payment): string { MethodLabel(p.via) }

  /** Only bKash, Nagad and cash are renamed, and no two methods share a label. */
  lemma {:induction false} LabelsRenameThree(m: PaymentMethod, n: PaymentMethod)
    ensures MethodLabel(m) != MethodName(m) <==> m == Bkash || m == Nagad || m == Cash
    ensures MethodLabel(m) == MethodLabel(n) ==> m == n
  {
  }

  /** paymentMethodData, over every payment whatever the range. */
  function MethodMap(payments: seq<Payment>): seq<(string, int)>
  {
    Tally(payments, PaymentLabel, PaymentAmount)
  }

  /** The method map holds under each method's label that method's total, and its values
      add up to the sum of all payments. */
  lemma {:induction false} MethodMapAddsUp(payments: seq<Payment>)
    ensures DistinctKeys(MethodMap(payments))
    ensures SumValues(MethodMap(payments)) == TotalPayments(payments)
    ensures forall m :: ValueOf(MethodMap(payments), MethodLabel(m)) == MethodTotal(payments, m)
  {
    TallyFacts(payments, PaymentLabel, PaymentAmount);
    forall m
      ensures ValueOf(MethodMap(payments), MethodLabel(m)) == MethodTotal(payments, m)
    {
      LabelSelectsMethod(payments, m);
    }
  }

  /** Selecting by label selects the same payments as selecting by method. */
  lemma {:induction false} LabelSelectsMethod(payments: seq<Payment>, m: PaymentMethod)
    ensures Filter(payments, KeyIs(PaymentLabel, MethodLabel(m))) == Filter(payments, KeyIs(PaymentVia, m))
  {
    forall i | 0 <= i < |payments|
      ensures KeyIs(PaymentLabel, MethodLabel(m))(payments[i]) == KeyIs(PaymentVia, m)(payments[i])
    {
      var p := payments[i];
      LabelsRenameThree(p.via, m);
      assert KeyIs(PaymentLabel, MethodLabel(m))(p) == (PaymentLabel(p) == MethodLabel(m));
      assert PaymentLabel(p) == MethodLabel(p.via);
      assert KeyIs(PaymentVia, m)(p) == (PaymentVia(p) == m);
      assert PaymentVia(p) == p.via;
    }
    FilterSame(payments, KeyIs(PaymentLabel, MethodLabel(m)), KeyIs(PaymentVia, m));
  }

  // ---------------------------------------------------------------------------
  // Top payers.

  /** A student with their payments in the range. */
  datatype Payer = Payer(student: Student, total: int)

  /** students.map(student => ({ ...student, totalPayments })) */
  function PayerTotals(students: seq<Student>, period: seq<Payment>): (r: seq<Payer>)
    ensures |r| == |students|
    ensures forall i :: 0 <= i < |r| ==> r[i] == Payer(students[i], Deposited(period, students[i].id))
  {
    if students == [] then [] else [Payer(students[0], Deposited(period, students[0].id))] + PayerTotals(students[1..], period)
  }

  function PaidSomething(p: Payer): bool { p.total > 0 }

  predicate SortedDesc(s: seq<Payer>)
  {
    forall i, j :: 0 <= i < j < |s| ==> s[i].total >= s[j].total
  }

  /** Put x after every payer with at least its total: the stable place in a descending list. */
  function InsertDesc(x: Payer, s: seq<Payer>): (r: seq<Payer>)
    ensures |r| == |s| + 1
    ensures r[0] == (if s == [] || s[0].total < x.total then x else s[0])
    ensures multiset(r) == multiset(s) + multiset{x}
  {
    if s == [] then [x]
    else if s[0].total >= x.total then
      assert s == [s[0]] + s[1..];
      [s[0]] + InsertDesc(x, s[1..])
    else
      [x] + s
  }

  /** Inserting into a descending list keeps it descending. */
  lemma {:induction false} InsertDescSorted(x: Payer, s: seq<Payer>)
    requires SortedDesc(s)
    ensures SortedDesc(InsertDesc(x, s))
  {
    if s != [] {
      if s[0].total >= x.total {
        assert forall i, j :: 0 <= i < j < |s[1..]| ==> s[1..][i] == s[i + 1] && s[1..][j] == s[j + 1];
        InsertDescSorted(x, s[1..]);
        SortedCons(s[0], InsertDesc(x, s[1..]));
      } else {
        SortedCons(x, s);
      }
    }
  }

  /** A head at least as large as the next element keeps a descending list descending. */
  lemma {:induction false} SortedCons(h: Payer, s: seq<Payer>)
    requires SortedDesc(s) && (s != [] ==> h.total >= s[0].total)
    ensures SortedDesc([h] + s)
  {
    var r := [h] + s;
    forall i, j | 0 <= i < j < |r|
      ensures r[i].total >= r[j].total
    {
      if i == 0 {
        assert r[j] == s[j - 1];
        assert s[0].total >= s[j - 1].total || j == 1;
      } else {
        assert r[i] == s[i - 1] && r[j] == s[j - 1];
      }
    }
  }

  /** sort((a, b) => b.totalPayments - a.totalPayments). Like Array.prototype.sort it is
      stable: see SortDescStable. */
  function SortDesc(s: seq<Payer>): (r: seq<Payer>)
    ensures SortedDesc(r)
    ensures multiset(r) == multiset(s)
    ensures |r| == |s|
  {
    if s == [] then []
    else
      assert s == s[..|s| - 1] + [s[|s| - 1]];
      InsertDescSorted(s[|s| - 1], SortDesc(s[..|s| - 1]));
      InsertDesc(s[|s| - 1], SortDesc(s[..|s| - 1]))
  }

  /** Selects the payers with one given total. */
  function TotalIs(t: int): Payer -> bool
  {
    (p: Payer) => p.total == t
  }

  /** The tail of a descending list is descending. */
  lemma {:induction false} SortedTail(s: seq<Payer>)
    requires SortedDesc(s) && s != []
    ensures SortedDesc(s[1..])
  {
    var tail := s[1..];
    forall i, j | 0 <= i < j < |tail|
      ensures tail[i].total >= tail[j].total
    {
      assert tail[i] == s[i + 1] && tail[j] == s[j + 1];
    }
  }

  /** Filtering a one-element list keeps the element exactly when it passes. */
  lemma {:induction false} FilterSingle(x: Payer, t: int)
    ensures Filter([x], TotalIs(t)) == (if x.total == t then [x] else [])
  {
    assert [x][1..] == [];
  }

  /** Inserting x keeps the payers of each total in their order, and puts x after the
      payers that share its total. */
  lemma {:induction false} InsertDescStable(x: Payer, s: seq<Payer>, t: int)
    requires SortedDesc(s)
    ensures Filter(InsertDesc(x, s), TotalIs(t)) == Filter(s, TotalIs(t)) + (if x.total == t then [x] else [])
  {
    FilterSingle(x, t);
    if s == [] {
    } else if s[0].total >= x.total {
      SortedTail(s);
      InsertDescStable(x, s[1..], t);
      InsertBehindHead(x, s, t);
    } else {
      assert InsertDesc(x, s) == [x] + s;
      BelowHeadNotTied(x, s);
      FilterAppend([x], s, TotalIs(t));
    }
  }

  /** Inserting behind the head keeps the head's place among the payers of total t. */
  lemma {:induction false} InsertBehindHead(x: Payer, s: seq<Payer>, t: int)
    requires s != [] && s[0].total >= x.total
    requires Filter(InsertDesc(x, s[1..]), TotalIs(t)) == Filter(s[1..], TotalIs(t)) + Filter([x], TotalIs(t))
    ensures Filter(InsertDesc(x, s), TotalIs(t)) == Filter(s, TotalIs(t)) + Filter([x], TotalIs(t))
  {
    var p, tail := TotalIs(t), s[1..];
    var h, e := Filter([s[0]], p), Filter([x], p);
    assert InsertDesc(x, s) == [s[0]] + InsertDesc(x, tail);
    assert s == [s[0]] + tail;
    FilterAppend([s[0]], tail, p);
    FilterAppend([s[0]], InsertDesc(x, tail), p);
    ConcatAssoc(h, Filter(tail, p), e);
  }

  /** A descending list headed below x holds no payer with x's total. */
  lemma {:induction false} BelowHeadNotTied(x: Payer, s: seq<Payer>)
    requires SortedDesc(s) && s != [] && s[0].total < x.total
    ensures Filter(s, TotalIs(x.total)) == []
  {
    forall i | 0 <= i < |s|
      ensures !TotalIs(x.total)(s[i])
    {
      assert i == 0 || s[0].total >= s[i].total;
    }
    FilterEmpty(s, TotalIs(x.total));
  }

  /** The sort is stable: the payers that share a total keep their input order. */
  lemma {:induction false} SortDescStable(s: seq<Payer>, t: int)
    ensures Filter(SortDesc(s), TotalIs(t)) == Filter(s, TotalIs(t))
  {
    if s != [] {
      var init, last := s[..|s| - 1], s[|s| - 1];
      SortDescStable(init, t);
      InsertDescStable(last, SortDesc(init), t);
      assert s == init + [last];
      FilterAppendOne(init, last, TotalIs(t));
    }
  }

  /** Payers tied on a positive total are ranked in the order of the student list, so the
      tie at the cut of the top five is broken by that order. */
  lemma {:induction false} RankedTiesInStudentOrder(students: seq<Student>, period: seq<Payment>, t: int)
    requires t > 0
    ensures Filter(RankedPayers(students, period), TotalIs(t)) == Filter(PayerTotals(students, period), TotalIs(t))
  {
    var totals := PayerTotals(students, period);
    SortDescStable(Filter(totals, PaidSomething), t);
    FilterFilter(totals, PaidSomething, TotalIs(t));
    FilterSame(totals, And(PaidSomething, TotalIs(t)), TotalIs(t));
  }

  /** How many payers the list shows. */
  const TopShown: nat := 5

  /** The payers who paid something in the range, highest total first. */
  function RankedPayers(students: seq<Student>, period: seq<Payment>): (r: seq<Payer>)
    ensures SortedDesc(r)
    ensures forall i :: 0 <= i < |r| ==> r[i].total > 0
    ensures forall i :: 0 <= i < |students| && Deposited(period, students[i].id) > 0 ==>
      Payer(students[i], Deposited(period, students[i].id)) in r
  {
    var r := SortDesc(Filter(PayerTotals(students, period), PaidSomething));
    RankedPositive(students, period, r);
    RankedIncludesPayers(students, period, r);
    r
  }

  /** Any reordering of the paying payers holds only positive totals. */
  lemma {:induction false} RankedPositive(students: seq<Student>, period: seq<Payment>, r: seq<Payer>)
    requires multiset(r) == multiset(Filter(PayerTotals(students, period), PaidSomething))
    ensures forall i :: 0 <= i < |r| ==> r[i].total > 0
  {
    var paid := Filter(PayerTotals(students, period), PaidSomething);
    SameElements(paid, r);
    forall i | 0 <= i < |r|
      ensures r[i].total > 0
    {
      assert r[i] in paid;
    }
  }

  /** Any reordering of the paying payers holds every student who paid in the range. */
  lemma {:induction false} RankedIncludesPayers(students: seq<Student>, period: seq<Payment>, r: seq<Payer>)
    requires multiset(r) == multiset(Filter(PayerTotals(students, period), PaidSomething))
    ensures forall i :: 0 <= i < |students| && Deposited(period, students[i].id) > 0 ==>
              Payer(students[i], Deposited(period, students[i].id)) in r
  {
    var totals := PayerTotals(students, period);
    var paid := Filter(totals, PaidSomething);
    FilterMembers(totals, PaidSomething);
    SameElements(paid, r);
    forall i | 0 <= i < |students| && Deposited(period, students[i].id) > 0
      ensures Payer(students[i], Deposited(period, students[i].id)) in r
    {
      assert totals[i] in totals && PaidSomething(totals[i]);
      assert totals[i] in paid;
    }
  }

  /** Two lists with the same multiset hold the same elements. */
  lemma {:induction false} SameElements<T>(a: seq<T>, b: seq<T>)
    requires multiset(a) == multiset(b)
    ensures forall x :: x in a <==> x in b
  {
    forall x
      ensures x in a <==> x in b
    {
      assert x in a <==> x in multiset(a);
    }
  }

  /** The top-payers list: students who paid in the range, highest total first, at most five. */
  function TopPayers(students: seq<Student>, period: seq<Payment>): (r: seq<Payer>)
    ensures |r| <= TopShown && |r| <= |RankedPayers(students, period)|
    ensures r == RankedPayers(students, period)[..|r|]
    ensures |r| == TopShown || r == RankedPayers(students, period)
  {
    var ranked := RankedPayers(students, period);
    if |ranked| < TopShown then
      assert ranked[..|ranked|] == ranked;
      ranked
    else
      ranked[..TopShown]
  }

  /** Every student who paid in the range is on the list, or the list is full and everyone
      on it paid at least as much; the list is in descending order of totals. */
  lemma {:induction false} TopPayersAreTop(students: seq<Student>, period: seq<Payment>, i: nat)
    requires i < |students| && Deposited(period, students[i].id) > 0
    ensures var top := TopPayers(students, period);
      var x := Payer(students[i], Deposited(period, students[i].id));
      SortedDesc(top) &&
      (x in top || (|top| == TopShown && forall j :: 0 <= j < |top| ==> top[j].total >= x.total))
  {
    var ranked := RankedPayers(students, period);
    var top := TopPayers(students, period);
    var x := Payer(students[i], Deposited(period, students[i].id));
    var k :| 0 <= k < |ranked| && ranked[k] == x;
    assert forall a, b :: 0 <= a < b < |top| ==> top[a] == ranked[a] && top[b] == ranked[b];
    if k < |top| {
      assert top[k] == x;
    } else {
      assert forall j :: 0 <= j < |top| ==> top[j] == ranked[j];
    }
  }
}
