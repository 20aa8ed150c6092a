/** The due-customers screen (src/components/DueCustomers/DueCustomerManager.tsx): which
    customers are overdue, the overdue filter, the totals, "remind all" and the days a
    customer is past due. A due date is compared as the midnight UTC of its day; "now" is
    a millisecond timestamp supplied by the caller. */
module DueManager {
  import opened Seqs
  import opened Types
  import opened Store
  import opened Forms
  import opened DueForm
  import opened Calendar

  /** 1000 * 60 * 60 * 24 */
  const MsPerDay: int := 86400000

  /** `new Date(c.dueDate) < new Date()`; a comparison with an invalid date is false. */
  predicate IsOverdue(c: DueCustomer, nowMs: int)
  {
    DateDay(c.dueDate).Some? && DateDay(c.dueDate).value * MsPerDay < nowMs
  }

  function OverdueAt(nowMs: int): DueCustomer -> bool
  {
    (c: DueCustomer) => IsOverdue(c, nowMs)
  }

  /** The overdue select: null (all), true (overdue only), false (not overdue only). */
  datatype OverdueFilter = AnyDue | OverdueOnly | CurrentOnly

  predicate FilterAdmits(filter: OverdueFilter, overdue: bool)
  {
    filter == AnyDue || (filter == OverdueOnly && overdue) || (filter == CurrentOnly && !overdue)
  }

  /** The search matches the name ignoring case, or the phone number as typed. */
  predicate CustomerFound(search: string, c: DueCustomer)
  {
    MatchesText(c.name, search) || Includes(c.phone, search)
  }

  function CustomerFoundBy(search: string): DueCustomer -> bool
  {
    (c: DueCustomer) => CustomerFound(search, c)
  }

  function CustomerShownBy(search: string, filter: OverdueFilter, nowMs: int): DueCustomer -> bool
  {
    (c: DueCustomer) => CustomerFound(search, c) && FilterAdmits(filter, IsOverdue(c, nowMs))
  }

  /** filteredCustomers */
  function FilteredCustomers(customers: seq<DueCustomer>, search: string, filter: OverdueFilter, nowMs: int)
    : (r: seq<DueCustomer>)
    ensures |r| <= |customers|
    ensures forall c :: c in r <==> c in customers && CustomerFound(search, c) && FilterAdmits(filter, IsOverdue(c, nowMs))
  {
    FilterMembers(customers, CustomerShownBy(search, filter, nowMs));
    Filter(customers, CustomerShownBy(search, filter, nowMs))
  }

  /** Every customer found by the search is listed either as overdue or as current, and
      never as both. */
  lemma {:induction false} OverdueFilterPartition(customers: seq<DueCustomer>, search: string, nowMs: int)
    ensures |FilteredCustomers(customers, search, OverdueOnly, nowMs)| + |FilteredCustomers(customers, search, CurrentOnly, nowMs)|
            == |FilteredCustomers(customers, search, AnyDue, nowMs)|
  {
    var found := CustomerFoundBy(search);
    var overdue := OverdueAt(nowMs);
    var all := FilteredCustomers(customers, search, AnyDue, nowMs);
    FilterSame(customers, CustomerShownBy(search, AnyDue, nowMs), found);
    FilterFilter(customers, found, overdue);
    FilterSame(customers, And(found, overdue), CustomerShownBy(search, OverdueOnly, nowMs));
    FilterFilter(customers, found, Not(overdue));
    FilterSame(customers, And(found, Not(overdue)), CustomerShownBy(search, CurrentOnly, nowMs));
    FilterSplitCount(all, overdue);
  }

  /** With no search text and the overdue filter, the list is exactly the overdue customers. */
  lemma {:induction false} OverdueListIsOverdueCustomers(customers: seq<DueCustomer>, nowMs: int)
    ensures FilteredCustomers(customers, "", OverdueOnly, nowMs) == OverdueCustomers(customers, nowMs)
  {
    forall i | 0 <= i < |customers|
      ensures CustomerShownBy("", OverdueOnly, nowMs)(customers[i]) == OverdueAt(nowMs)(customers[i])
    {
      IncludesEmpty(Lower(customers[i].name));
      assert Lower("") == "";
    }
    FilterSame(customers, CustomerShownBy("", OverdueOnly, nowMs), OverdueAt(nowMs));
  }

  function CustomerDue(c: DueCustomer): int { c.totalDue }
  function CustomerPreviousDue(c: DueCustomer): int { c.previousDue }
  function CustomerTodaysDue(c: DueCustomer): int { c.todaysDue }
  function CustomerDeposit(c: DueCustomer): int { c.deposit }
  function WasReminded(c: DueCustomer): bool { c.reminderSent }
  function OwesMoney(c: DueCustomer): bool { c.totalDue > 0 }

  function TotalDue(customers: seq<DueCustomer>): int { Sum(customers, CustomerDue) }

  /** overdueCustomers */
  function OverdueCustomers(customers: seq<DueCustomer>, nowMs: int): (r: seq<DueCustomer>)
    ensures forall c :: c in r <==> c in customers && IsOverdue(c, nowMs)
  {
    FilterMembers(customers, OverdueAt(nowMs));
    Filter(customers, OverdueAt(nowMs))
  }

  function TotalOverdue(customers: seq<DueCustomer>, nowMs: int): int
  {
    Sum(OverdueCustomers(customers, nowMs), CustomerDue)
  }

  /** The overdue total and the total of the customers not yet due make up the total due;
      when nobody is owed money the overdue total is at most the total due. */
  lemma {:induction false} OverdueTotalSplit(customers: seq<DueCustomer>, nowMs: int)
    ensures TotalOverdue(customers, nowMs) + Sum(Filter(customers, Not(OverdueAt(nowMs))), CustomerDue) == TotalDue(customers)
    ensures (forall i :: 0 <= i < |customers| ==> customers[i].totalDue >= 0) ==> TotalOverdue(customers, nowMs) <= TotalDue(customers)
  {
    FilterSplitSum(customers, OverdueAt(nowMs), CustomerDue);
    if forall i :: 0 <= i < |customers| ==> customers[i].totalDue >= 0 {
      var current := Filter(customers, Not(OverdueAt(nowMs)));
      FilterMembers(customers, Not(OverdueAt(nowMs)));
      forall j | 0 <= j < |current| ensures current[j].totalDue >= 0 {
        assert current[j] in customers;
      }
      NonNegativeDues(current);
    }
  }

  lemma {:induction false} NonNegativeDues(customers: seq<DueCustomer>)
    requires forall i :: 0 <= i < |customers| ==> customers[i].totalDue >= 0
    ensures TotalDue(customers) >= 0
  {
    if customers != [] {
      assert forall i :: 0 <= i < |customers[1..]| ==> customers[1..][i] == customers[i + 1];
      NonNegativeDues(customers[1..]);
    }
  }

  /** When every running total is consistent, the total due is the previous dues plus
      today's dues minus the deposits. */
  lemma {:induction false} TotalDueFromParts(customers: seq<DueCustomer>)
    requires forall i :: 0 <= i < |customers| ==> CustomerBalanced(customers[i])
    ensures TotalDue(customers) ==
      Sum(customers, CustomerPreviousDue) + Sum(customers, CustomerTodaysDue) - Sum(customers, CustomerDeposit)
  {
    if customers != [] {
      assert forall i :: 0 <= i < |customers[1..]| ==> customers[1..][i] == customers[i + 1];
      TotalDueFromParts(customers[1..]);
      assert CustomerBalanced(customers[0]);
    }
  }

  /** remindersSent */
  function RemindersSent(customers: seq<DueCustomer>): (n: nat)
    ensures n <= |customers|
  {
    |Filter(customers, WasReminded)|
  }

  /** A customer added through the form has not been reminded, so the count stays. */
  lemma {:induction false} NewCustomerNotReminded(customers: seq<DueCustomer>, d: DueFormData, id: string)
    ensures RemindersSent(customers + [FormCustomer(d, id)]) == RemindersSent(customers)
  {
    FilterAppendOne(customers, FormCustomer(d, id), WasReminded);
  }

  /** The customers "remind all" addresses: those who owe money. */
  function ReminderTargets(customers: seq<DueCustomer>): (r: seq<DueCustomer>)
    ensures forall c :: c in r <==> c in customers && c.totalDue > 0
  {
    FilterMembers(customers, OwesMoney);
    Filter(customers, OwesMoney)
  }

  /** sendReminderToAll: an error when nobody owes money, otherwise the number of
      customers reminded. */
  function RemindAll(customers: seq<DueCustomer>): (r: Option<nat>)
    ensures r.None? <==> forall i :: 0 <= i < |customers| ==> customers[i].totalDue <= 0
    ensures r.Some? ==> r.value == |ReminderTargets(customers)| && 0 < r.value <= |customers|
  {
    var targets := ReminderTargets(customers);
    if |targets| == 0 then
      assert forall i :: 0 <= i < |customers| ==> customers[i] !in targets;
      None
    else
      assert targets[0] in customers;
      Some(|targets|)
  }

  /** What showOverdueList leaves behind: the filter it sets and the count it announces. */
  datatype OverdueView = OverdueView(filter: OverdueFilter, announced: nat)

  /** showOverdueList sets the filter to overdue only and announces how many customers
      are overdue; the list then shows at most that many, and exactly those when the
      search box is empty. */
  function ShowOverdueList(customers: seq<DueCustomer>, search: string, nowMs: int): (v: OverdueView)
    ensures v.filter == OverdueOnly
    ensures |FilteredCustomers(customers, search, v.filter, nowMs)| <= v.announced
    ensures search == "" ==> FilteredCustomers(customers, search, v.filter, nowMs) == OverdueCustomers(customers, nowMs)
  {
    OverdueSearchWithin(customers, search, nowMs);
    OverdueListIsOverdueCustomers(customers, nowMs);
    OverdueView(OverdueOnly, |OverdueCustomers(customers, nowMs)|)
  }

  /** The overdue customers a search finds are the search among the overdue customers. */
  lemma {:induction false} OverdueSearchWithin(customers: seq<DueCustomer>, search: string, nowMs: int)
    ensures FilteredCustomers(customers, search, OverdueOnly, nowMs) ==
            Filter(OverdueCustomers(customers, nowMs), CustomerFoundBy(search))
  {
    var overdue := OverdueAt(nowMs);
    var found := CustomerFoundBy(search);
    FilterFilter(customers, overdue, found);
    forall i | 0 <= i < |customers|
      ensures And(overdue, found)(customers[i]) == CustomerShownBy(search, OverdueOnly, nowMs)(customers[i])
    {
    }
    FilterSame(customers, And(overdue, found), CustomerShownBy(search, OverdueOnly, nowMs));
  }

  /** Math.ceil(x / d) for a positive whole d. */
  function CeilDiv(x: int, d: int): (q: int)
    requires d > 0
    ensures (q - 1) * d < x <= q * d
  {
    var f := (-x) / d;
    assert f * d <= -x < f * d + d;
    -f
  }

  /** getDaysOverdue: whole days from the due date to now, rounded up; NaN (None) for a
      due date that does not parse. */
  function DaysOverdue(dueDate: DateText, nowMs: int): (r: Option<int>)
    ensures r.Some? <==> IsDateText(dueDate)
  {
    match DateDay(dueDate)
    case None => None
    case Some(day) => Some(CeilDiv(nowMs - day * MsPerDay, MsPerDay))
  }

  /** The days overdue are positive exactly for an overdue customer; a due date later
      today gives 1, and n whole days after the due midnight give n. */
  lemma {:induction false} DaysOverduePositiveIff(c: DueCustomer, nowMs: int)
    requires IsDateText(c.dueDate)
    ensures DaysOverdue(c.dueDate, nowMs).value > 0 <==> IsOverdue(c, nowMs)
    ensures var due := DateDay(c.dueDate).value * MsPerDay;
      (due < nowMs <= due + MsPerDay ==> DaysOverdue(c.dueDate, nowMs).value == 1) &&
      (forall n: int {:trigger n * MsPerDay} :: nowMs == due + n * MsPerDay ==> DaysOverdue(c.dueDate, nowMs).value == n)
  {
    var due := DateDay(c.dueDate).value * MsPerDay;
    var q := DaysOverdue(c.dueDate, nowMs).value;
    assert (q - 1) * MsPerDay < nowMs - due <= q * MsPerDay;
    if q > 0 {
      assert (q - 1) * MsPerDay >= 0;
    } else {
      assert q * MsPerDay <= 0;
    }
    forall n: int | nowMs == due + n * MsPerDay
      ensures q == n
    {
      assert (q - 1) * MsPerDay < n * MsPerDay <= q * MsPerDay;
      assert (q - 1 - n) * MsPerDay < 0 <= (q - n) * MsPerDay;
    }
  }
}
