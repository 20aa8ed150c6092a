/** The students screen (src/components/Students/StudentList.tsx): the search and the three
    figures above the list, and the low-balance rule the dashboard and the reports share. */
module StudentList {
  import opened Seqs
  import opened Types
  import opened Store

  /** A balance at or below this is low. */
  const LowBalanceLimit: int := 300

  function StudentBalance(s: Student): int { s.balance }
  function IsActive(s: Student): bool { s.status == Active }
  function IsInactive(s: Student): bool { s.status == Inactive }
  function IsLowBalance(s: Student): bool { s.balance <= LowBalanceLimit }

  /** The search matches the name or the roll, ignoring case. */
  predicate StudentFound(search: string, s: Student)
  {
    MatchesText(s.name, search) || MatchesText(s.roll, search)
  }

  function StudentFoundBy(search: string): Student -> bool
  {
    (s: Student) => StudentFound(search, s)
  }

  /** filteredStudents */
  function FilteredStudents(students: seq<Student>, search: string): (r: seq<Student>)
    ensures |r| <= |students|
    ensures forall s :: s in r <==> s in students && StudentFound(search, s)
  {
    FilterMembers(students, StudentFoundBy(search));
    Filter(students, StudentFoundBy(search))
  }

  /** The empty search lists every student, in order. */
  lemma {:induction false} EmptySearchListsAll(students: seq<Student>)
    ensures FilteredStudents(students, "") == students
  {
    if students != [] {
      IncludesEmpty(Lower(students[0].name));
      assert Lower("") == "";
      EmptySearchListsAll(students[1..]);
      assert students == [students[0]] + students[1..];
    }
  }

  /** The active-students figure. */
  function ActiveCount(students: seq<Student>): (n: nat)
    ensures n <= |students|
  {
    |Filter(students, IsActive)|
  }

  /** Every student is either active or inactive, so the active figure and the number of
      inactive students make up the whole list. */
  lemma {:induction false} ActiveInactiveSplit(students: seq<Student>)
    ensures ActiveCount(students) + |Filter(students, IsInactive)| == |students|
  {
    FilterSplitCount(students, IsActive);
    FilterSame(students, Not(IsActive), IsInactive);
  }

  /** The students with a low balance, in order. */
  function LowBalanceStudents(students: seq<Student>): (r: seq<Student>)
    ensures |r| <= |students|
    ensures forall s :: s in r <==> s in students && s.balance <= LowBalanceLimit
  {
    FilterMembers(students, IsLowBalance);
    Filter(students, IsLowBalance)
  }

  /** The low-balance students together hold at most 300 per head. */
  lemma {:induction false} LowBalanceSumBound(students: seq<Student>)
    ensures Sum(LowBalanceStudents(students), StudentBalance) <= LowBalanceLimit * |LowBalanceStudents(students)|
  {
    var low := LowBalanceStudents(students);
    AllAtMost(low);
  }

  lemma {:induction false} AllAtMost(low: seq<Student>)
    requires forall i :: 0 <= i < |low| ==> low[i].balance <= LowBalanceLimit
    ensures Sum(low, StudentBalance) <= LowBalanceLimit * |low|
  {
    if low != [] {
      assert forall i :: 0 <= i < |low[1..]| ==> low[1..][i] == low[i + 1];
      AllAtMost(low[1..]);
    }
  }

  /** The total-balance figure. */
  function TotalBalance(students: seq<Student>): int
  {
    Sum(students, StudentBalance)
  }

  /** With distinct ids, a present record moves the total balance down by exactly the
      student's meal charge, and a record for an unknown id leaves it alone. */
  lemma {:induction false} MealMovesTotalBalance(ss: seq<Student>, id: string)
    requires UniqueIds(ss)
    ensures (forall i :: 0 <= i < |ss| ==> ss[i].id != id) ==> TotalBalance(ChargeMeal(ss, id)) == TotalBalance(ss)
    ensures forall i :: 0 <= i < |ss| && ss[i].id == id ==> TotalBalance(ChargeMeal(ss, id)) == TotalBalance(ss) - ss[i].mealCharge
  {
    ChargeMealFrame(ss, id);
    forall i | 0 <= i < |ss| && ss[i].id == id
      ensures TotalBalance(ChargeMeal(ss, id)) == TotalBalance(ss) - ss[i].mealCharge
    {
      ChargeMealAt(ss, id, i);
      var y := ss[i].(balance := ss[i].balance - ss[i].mealCharge);
      assert ChargeMeal(ss, id) == ss[i := y];
      SumUpdate(ss, i, y, StudentBalance);
    }
  }

  /** With distinct ids, a payment moves the total balance up by exactly its amount, and a
      payment for an unknown id leaves it alone. */
  lemma {:induction false} PaymentMovesTotalBalance(ss: seq<Student>, id: string, amount: int)
    requires UniqueIds(ss)
    ensures (forall i :: 0 <= i < |ss| ==> ss[i].id != id) ==> TotalBalance(CreditPayment(ss, id, amount)) == TotalBalance(ss)
    ensures (exists i :: 0 <= i < |ss| && ss[i].id == id) ==> TotalBalance(CreditPayment(ss, id, amount)) == TotalBalance(ss) + amount
  {
    CreditPaymentFrame(ss, id, amount);
    if i :| 0 <= i < |ss| && ss[i].id == id {
      CreditPaymentAt(ss, id, amount, i);
      var y := ss[i].(balance := ss[i].balance + amount);
      assert CreditPayment(ss, id, amount) == ss[i := y];
      SumUpdate(ss, i, y, StudentBalance);
    }
  }
}
