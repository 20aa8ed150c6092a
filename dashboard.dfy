/** The dashboard (src/components/Dashboard/Dashboard.tsx): the administrator's figures for
    today, and a student's own view of their attendance and money. */
module Dashboard {
  import opened Seqs
  import opened Types
  import opened Store
  import opened Forms
  import opened Calendar
  import opened AttendanceSheet
  import opened StudentList
  import opened CashManager
  import opened PaymentManager
  import opened StudentPortal
  import opened ExpenseManager

  /** presentToday: today's records that say present. */
  function PresentToday(att: seq<Attendance>, today: DateText): (n: nat)
    ensures n <= |DayRecords(att, today)|
  {
    |Filter(DayRecords(att, today), IsPresent)|
  }

  /** The stat cards of the administrator's dashboard. */
  datatype AdminFigures = AdminFigures(presentToday: nat, totalStudents: nat, lowBalance: nat, totalCash: int, todayPayments: int)

  function AdminStats(db: Db, today: DateText): (f: AdminFigures)
    ensures f.presentToday <= |DayRecords(db.attendance, today)|
    ensures f.totalStudents == |db.students| && f.lowBalance <= f.totalStudents
  {
    AdminFigures(PresentToday(db.attendance, today), |db.students|, |LowBalanceStudents(db.students)|,
                 TotalCash(db.cashEntries), TodayTotal(db.payments, today))
  }

  /** An attendance record raises "present today" by one exactly when it is a present
      record for today; the money figures do not move. */
  lemma {:induction false} AttendanceMovesFigures(db: Db, rec: Attendance, today: DateText)
    ensures var f, g := AdminStats(db, today), AdminStats(RecordAttendance(db, rec), today);
      g.presentToday == f.presentToday + (if rec.date == today && rec.present then 1 else 0) &&
      g.totalStudents == f.totalStudents && g.totalCash == f.totalCash && g.todayPayments == f.todayPayments
  {
    var day := DayRecords(db.attendance, today);
    FilterAppendOne(db.attendance, rec, AttendanceDateIs(today));
    if rec.date == today {
      assert DayRecords(db.attendance + [rec], today) == day + [rec];
      FilterAppendOne(day, rec, IsPresent);
    } else {
      assert DayRecords(db.attendance + [rec], today) == day;
    }
  }

  /** A payment raises today's payment total by its amount when it is dated today; with
      distinct ids and a non-negative amount it never adds a low-balance student. */
  lemma {:induction false} PaymentMovesFigures(db: Db, p: Payment, today: DateText)
    requires UniqueIds(db.students)
    ensures var f, g := AdminStats(db, today), AdminStats(RecordPayment(db, p), today);
      g.todayPayments == f.todayPayments + (if p.date == today then p.amount else 0) &&
      g.presentToday == f.presentToday && g.totalCash == f.totalCash &&
      (p.amount >= 0 ==> g.lowBalance <= f.lowBalance)
  {
    TodayTotalAppend(db.payments, p, today);
    if p.amount >= 0 {
      PaymentKeepsLowBalanceCount(db.students, p);
    }
  }

  lemma {:induction false} TodayTotalAppend(ps: seq<Payment>, p: Payment, today: DateText)
    ensures TodayTotal(ps + [p], today) == TodayTotal(ps, today) + (if p.date == today then p.amount else 0)
  {
    FilterAppendOne(ps, p, PaymentDateIs(today));
    if p.date == today {
      var before := Filter(ps, PaymentDateIs(today));
      assert Filter(ps + [p], PaymentDateIs(today)) == before + [p];
      SumAppend(before, [p], PaymentAmount);
      assert [p][1..] == [];
    } else {
      assert Filter(ps + [p], PaymentDateIs(today)) == Filter(ps, PaymentDateIs(today)) + [];
      assert Filter(ps, PaymentDateIs(today)) + [] == Filter(ps, PaymentDateIs(today));
    }
  }

  lemma {:induction false} PaymentKeepsLowBalanceCount(ss: seq<Student>, p: Payment)
    requires UniqueIds(ss) && p.amount >= 0
    ensures |LowBalanceStudents(CreditPayment(ss, p.studentId, p.amount))| <= |LowBalanceStudents(ss)|
  {
    var after := CreditPayment(ss, p.studentId, p.amount);
    CreditPaymentFrame(ss, p.studentId, p.amount);
    forall i | 0 <= i < |after| && IsLowBalance(after[i])
      ensures IsLowBalance(ss[i])
    {
      if ss[i].id == p.studentId {
        CreditPaymentAt(ss, p.studentId, p.amount, i);
      }
    }
    FilterCountMono(ss, after, IsLowBalance);
  }

  /** A student's own records. */
  function MyRecords(att: seq<Attendance>, id: string): seq<Attendance>
  {
    Filter(att, AttendanceOf(id))
  }

  /** What the student's dashboard shows about them. */
  datatype StudentView = StudentView(presentDays: nat, absentDays: nat, records: nat, rate: int, spent: int, deposited: int)

  /** The student view's figures: present and absent days, the attendance rate rounded to
      a whole percent, the meals eaten at the student's charge, and the payments made. */
  function ViewOf(db: Db, s: Student): (v: StudentView)
    ensures v.records == |MyRecords(db.attendance, s.id)|
    ensures v.presentDays + v.absentDays == v.records
    ensures v.presentDays == PresentDays(db.attendance, s.id)
    ensures v.records == 0 ==> v.rate == 0
    ensures 0 <= v.rate <= 100
    ensures v.spent == MealCost(v.presentDays, s.mealCharge)
    ensures v.deposited == Deposited(db.payments, s.id)
  {
    var mine := MyRecords(db.attendance, s.id);
    var present := |Filter(mine, IsPresent)|;
    FilterSplitCount(mine, IsPresent);
    RateBounds(present, |mine|);
    StudentView(present, |Filter(mine, Not(IsPresent))|, |mine|, Average(100 * present, |mine|),
                MealCost(present, s.mealCharge), Deposited(db.payments, s.id))
  }

  /** Math.round(present / records * 100) is a whole percent between 0 and 100. */
  lemma {:induction false} RateBounds(present: nat, records: nat)
    requires present <= records
    ensures 0 <= Average(100 * present, records) <= 100
  {
    if records > 0 {
      var a := Average(100 * present, records);
      var c2 := 2 * records;
      AverageNearest(100 * present, records);
      MulCancelLess(c2, -1, a);
      MulCancelLess(c2, a, 101);
    }
  }

  /** A positive factor can be cancelled from a strict inequality. */
  lemma {:induction false} MulCancelLess(c: int, a: int, b: int)
    requires c > 0 && c * a < c * b
    ensures a < b
  {
  }

  /** The student view of the logged-in student, found by name; nothing when no student
      has the user's name. */
  function StudentDashboard(db: Db, user: User): (v: Option<StudentView>)
    ensures v.None? <==> forall j :: 0 <= j < |db.students| ==> db.students[j].name != user.name
    ensures v.Some? ==> exists k :: 0 <= k < |db.students| && db.students[k].name == user.name && v.value == ViewOf(db, db.students[k])
  {
    match PayingStudent(db.students, Some(user))
    case None => None
    case Some(k) => Some(ViewOf(db, db.students[k]))
  }

  /** A present record for a student (ids distinct) moves their balance card down and
      their "spent" card up by the meal charge, one more present day, and nothing else. */
  lemma {:induction false} MealMovesView(db: Db, rec: Attendance, i: nat)
    requires UniqueIds(db.students) && i < |db.students| && rec.studentId == db.students[i].id && rec.present
    ensures var after := RecordAttendance(db, rec);
      var s, s' := db.students[i], after.students[i];
      var v, v' := ViewOf(db, s), ViewOf(after, s');
      s'.balance == s.balance - s.mealCharge && s'.mealCharge == s.mealCharge &&
      v'.presentDays == v.presentDays + 1 && v'.absentDays == v.absentDays &&
      v'.spent == v.spent + s.mealCharge && v'.deposited == v.deposited
  {
    var s := db.students[i];
    ChargeMealAt(db.students, rec.studentId, i);
    PresentDaysAppend(db.attendance, rec, s.id);
    MealCostStep(PresentDays(db.attendance, s.id), s.mealCharge);
    FilterAppendOne(db.attendance, rec, AttendanceOf(s.id));
  }

  // ---------------------------------------------------------------------------
  // "This month": present and absent days of the current month.

  /** As written, a record counts for this month when its month number equals the current
      one, whatever the year. */
  predicate SameMonthAsWritten(date: DateText, today: DateText)
    requires IsDateText(today)
  {
    IsDateText(date) && MonthOf(date) == MonthOf(today)
  }

  function PresentInMonthAsWritten(id: string, today: DateText): Attendance -> bool
    requires IsDateText(today)
  {
    (a: Attendance) => a.studentId == id && a.present && SameMonthAsWritten(a.date, today)
  }

  /** The present days "this month", as written. */
  function MonthPresentAsWritten(att: seq<Attendance>, id: string, today: DateText): (n: nat)
    requires IsDateText(today)
    ensures n <= |att|
  {
    |Filter(att, PresentInMonthAsWritten(id, today))|
  }

  /** A present day in October of last year is counted as a present day of this October. */
  lemma {:induction false} LastYearCountedAsWritten()
    ensures var rec := Attendance("a1", "s1", "2025-10-03", true, Manual, "");
      IsDateText("2026-10-15") && MonthPresentAsWritten([rec], "s1", "2026-10-15") == 1 &&
      YearOf("2025-10-03") != YearOf("2026-10-15")
  {
    RecordDate();
    TodayDate();
    var rec := Attendance("a1", "s1", "2025-10-03", true, Manual, "");
    assert PresentInMonthAsWritten("s1", "2026-10-15")(rec);
    assert Filter([rec], PresentInMonthAsWritten("s1", "2026-10-15")) == [rec];
  }

  lemma {:induction false} RecordDate()
    ensures IsDateText("2025-10-03") && YearOf("2025-10-03") == 2025 && MonthOf("2025-10-03") == 10
  {
    var d := "2025-10-03";
    assert d[..4] == "2025" && d[5..7] == "10" && d[8..] == "03" && d[8..10] == "03";
    Year2025();
    TwoDigits('1', '0');
    TwoDigits('0', '3');
  }

  lemma {:induction false} TodayDate()
    ensures IsDateText("2026-10-15") && YearOf("2026-10-15") == 2026 && MonthOf("2026-10-15") == 10
  {
    var t := "2026-10-15";
    assert t[..4] == "2026" && t[5..7] == "10" && t[8..] == "15" && t[8..10] == "15";
    Year2026();
    TwoDigits('1', '0');
    TwoDigits('1', '5');
  }

  lemma {:induction false} TwoDigits(a: char, b: char)
    requires IsDigit(a) && IsDigit(b)
    ensures AllDigits([a, b]) && DigitsValue([a, b]) == 10 * (a as int - '0' as int) + (b as int - '0' as int)
  {
    assert [a, b][..1] == [a] && [a][..0] == [];
    assert DigitsValue([a]) == a as int - '0' as int;
  }

  lemma {:induction false} Year2025()
    ensures AllDigits("2025") && DigitsValue("2025") == 2025
  {
    assert "2025"[..3] == "202" && "202"[..2] == "20" && "20"[..1] == "2" && "2"[..0] == "";
  }

  lemma {:induction false} Year2026()
    ensures AllDigits("2026") && DigitsValue("2026") == 2026
  {
    assert "2026"[..3] == "202" && "202"[..2] == "20" && "20"[..1] == "2" && "2"[..0] == "";
  }

  /** The evident intent: the same year and the same month as today. */
  predicate SameMonth(date: DateText, today: DateText)
    requires IsDateText(today)
  {
    IsDateText(date) && YearOf(date) == YearOf(today) && MonthOf(date) == MonthOf(today)
  }

  function ThisMonth(today: DateText): Attendance -> bool
    requires IsDateText(today)
  {
    (a: Attendance) => SameMonth(a.date, today)
  }

  function InMonthOf(id: string, present: bool, today: DateText): Attendance -> bool
    requires IsDateText(today)
  {
    (a: Attendance) => a.studentId == id && a.present == present && SameMonth(a.date, today)
  }

  /** This month's present and absent days of a student. */
  datatype MonthFigures = MonthFigures(present: nat, absent: nat)

  function MonthCounts(att: seq<Attendance>, id: string, today: DateText): (m: MonthFigures)
    requires IsDateText(today)
    ensures m.present <= PresentDays(att, id)
    ensures m.present + m.absent <= |MyRecords(att, id)|
    ensures m.present == |Filter(att, InMonthOf(id, true, today))| && m.absent == |Filter(att, InMonthOf(id, false, today))|
    ensures forall a :: a in Filter(att, InMonthOf(id, true, today)) <==>
      a in att && a.studentId == id && a.present && SameMonth(a.date, today)
    ensures forall a :: a in Filter(att, InMonthOf(id, false, today)) <==>
      a in att && a.studentId == id && !a.present && SameMonth(a.date, today)
  {
    FilterMembers(att, InMonthOf(id, true, today));
    FilterMembers(att, InMonthOf(id, false, today));
    var mine := MyRecords(att, id);
    var thisMonth := ThisMonth(today);
    FilterFilter(att, AttendanceOf(id), And(IsPresent, thisMonth));
    FilterSame(att, And(AttendanceOf(id), And(IsPresent, thisMonth)), InMonthOf(id, true, today));
    FilterFilter(att, AttendanceOf(id), And(Not(IsPresent), thisMonth));
    FilterSame(att, And(AttendanceOf(id), And(Not(IsPresent), thisMonth)), InMonthOf(id, false, today));
    FilterDisjointCount(mine, And(IsPresent, thisMonth), And(Not(IsPresent), thisMonth));
    FilterFilter(mine, IsPresent, thisMonth);
    MonthFigures(|Filter(att, InMonthOf(id, true, today))|, |Filter(att, InMonthOf(id, false, today))|)
  }

  /** A record from another year never counts for this month: it is in neither month
      list, and adding it leaves this month's figures as they were. */
  lemma {:induction false} OtherYearNotCounted(att: seq<Attendance>, id: string, today: DateText, a: Attendance)
    requires IsDateText(today) && IsDateText(a.date) && YearOf(a.date) != YearOf(today)
    ensures a !in Filter(att, InMonthOf(id, true, today)) && a !in Filter(att, InMonthOf(id, false, today))
    ensures MonthCounts(att + [a], id, today) == MonthCounts(att, id, today)
  {
    FilterMembers(att, InMonthOf(id, true, today));
    FilterMembers(att, InMonthOf(id, false, today));
    FilterAppendOne(att, a, InMonthOf(id, true, today));
    FilterAppendOne(att, a, InMonthOf(id, false, today));
  }
}
