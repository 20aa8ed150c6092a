/** The suppliers screen (src/components/Suppliers/SupplierManager.tsx): the search, the
    running totals, the due list, the high-due alert and today's account. */
module SupplierManager {
  import opened Seqs
  import opened Types
  import opened Store

  /** Above this due the alert lists a supplier. */
  const HighDueLimit: int := 10000

  /** How many suppliers the alert lists at most. */
  const HighDueShown: nat := 3

  function SupplierDue(s: Supplier): int { s.totalDue }
  function SupplierBill(s: Supplier): int { s.todaysBill }
  function SupplierDeposit(s: Supplier): int { s.todaysDeposit }
  function SupplierPreviousDue(s: Supplier): int { s.previousDue }
  function HasDue(s: Supplier): bool { s.totalDue > 0 }
  function HasHighDue(s: Supplier): bool { s.totalDue > HighDueLimit }
  function TradedToday(s: Supplier): bool { s.todaysBill > 0 || s.todaysDeposit > 0 }

  /** The search matches the name or the address ignoring case, or the phone number as typed. */
  predicate SupplierShown(search: string, s: Supplier)
  {
    MatchesText(s.name, search) || Includes(s.phone, search) || MatchesText(s.address, search)
  }

  function SupplierShownBy(search: string): Supplier -> bool
  {
    (s: Supplier) => SupplierShown(search, s)
  }

  /** filteredSuppliers */
  function FilteredSuppliers(suppliers: seq<Supplier>, search: string): (r: seq<Supplier>)
    ensures |r| <= |suppliers|
    ensures forall s :: s in r <==> s in suppliers && SupplierShown(search, s)
  {
    FilterMembers(suppliers, SupplierShownBy(search));
    Filter(suppliers, SupplierShownBy(search))
  }

  /** The empty search lists every supplier. */
  lemma {:induction false} EmptySearchListsAll(suppliers: seq<Supplier>)
    ensures FilteredSuppliers(suppliers, "") == suppliers
  {
    if suppliers != [] {
      IncludesEmpty(suppliers[0].phone);
      EmptySearchListsAll(suppliers[1..]);
      assert suppliers == [suppliers[0]] + suppliers[1..];
    }
  }

  function TotalDue(suppliers: seq<Supplier>): int { Sum(suppliers, SupplierDue) }
  function TotalBill(suppliers: seq<Supplier>): int { Sum(suppliers, SupplierBill) }
  function TotalDeposit(suppliers: seq<Supplier>): int { Sum(suppliers, SupplierDeposit) }

  /** The monthly report's netBalance. */
  function NetBalance(suppliers: seq<Supplier>): int
  {
    TotalBill(suppliers) - TotalDeposit(suppliers)
  }

  /** When every supplier's running total is consistent, the total due is the previous dues
      plus the net balance of today's bills and deposits. */
  lemma {:induction false} TotalDueFromParts(suppliers: seq<Supplier>)
    requires forall i :: 0 <= i < |suppliers| ==> SupplierBalanced(suppliers[i])
    ensures TotalDue(suppliers) == Sum(suppliers, SupplierPreviousDue) + NetBalance(suppliers)
  {
    if suppliers != [] {
      assert forall i :: 0 <= i < |suppliers[1..]| ==> suppliers[1..][i] == suppliers[i + 1];
      TotalDueFromParts(suppliers[1..]);
      assert SupplierBalanced(suppliers[0]);
    }
  }

  /** showDueList: the suppliers who are owed money. */
  function DueList(suppliers: seq<Supplier>): (r: seq<Supplier>)
    ensures forall s :: s in r <==> s in suppliers && s.totalDue > 0
  {
    FilterMembers(suppliers, HasDue);
    Filter(suppliers, HasDue)
  }

  /** The "nobody is owed" message shows exactly when no supplier has a positive due. */
  lemma {:induction false} DueListEmptyIff(suppliers: seq<Supplier>)
    ensures DueList(suppliers) == [] <==> forall i :: 0 <= i < |suppliers| ==> suppliers[i].totalDue <= 0
  {
    if forall i :: 0 <= i < |suppliers| ==> suppliers[i].totalDue <= 0 {
      FilterEmpty(suppliers, HasDue);
    } else {
      var i :| 0 <= i < |suppliers| && suppliers[i].totalDue > 0;
      assert suppliers[i] in DueList(suppliers);
    }
  }

  /** The due list's total is never below the total due: the suppliers left out owe nothing
      or carry credit. */
  lemma {:induction false} DueListCoversTotal(suppliers: seq<Supplier>)
    ensures Sum(DueList(suppliers), SupplierDue) >= TotalDue(suppliers)
  {
    FilterSplitSum(suppliers, HasDue, SupplierDue);
    NonPositiveSum(Filter(suppliers, Not(HasDue)));
  }

  lemma {:induction false} NonPositiveSum(suppliers: seq<Supplier>)
    requires forall i :: 0 <= i < |suppliers| ==> !HasDue(suppliers[i])
    ensures Sum(suppliers, SupplierDue) <= 0
  {
    if suppliers != [] {
      assert forall i :: 0 <= i < |suppliers[1..]| ==> suppliers[1..][i] == suppliers[i + 1];
      NonPositiveSum(suppliers[1..]);
    }
  }

  /** The suppliers with a due above 10000, and the first three of them that the alert lists. */
  function HighDue(suppliers: seq<Supplier>): (r: seq<Supplier>)
    ensures forall s :: s in r <==> s in suppliers && s.totalDue > HighDueLimit
  {
    FilterMembers(suppliers, HasHighDue);
    Filter(suppliers, HasHighDue)
  }

  function HighDueAlert(suppliers: seq<Supplier>): (r: seq<Supplier>)
    ensures |r| <= HighDueShown
    ensures |r| == if |HighDue(suppliers)| < HighDueShown then |HighDue(suppliers)| else HighDueShown
    ensures r == HighDue(suppliers)[..|r|]
  {
    var h := HighDue(suppliers);
    if |h| <= HighDueShown then h else h[..HighDueShown]
  }

  /** Every supplier in the high-due alert is also on the due list. */
  lemma {:induction false} HighDueOnDueList(suppliers: seq<Supplier>)
    ensures forall s :: s in HighDueAlert(suppliers) ==> s in DueList(suppliers)
  {
    var h := HighDue(suppliers);
    var a := HighDueAlert(suppliers);
    forall s | s in a ensures s in DueList(suppliers) {
      assert s in h;
    }
  }

  /** showTodaysAccount: how many suppliers had a bill or a deposit today. */
  function TodaysAccountCount(suppliers: seq<Supplier>): (n: nat)
    ensures n <= |suppliers|
  {
    |Filter(suppliers, TradedToday)|
  }

  /** Today's account is empty exactly when no supplier had a positive bill or deposit today. */
  lemma {:induction false} TodaysAccountEmptyIff(suppliers: seq<Supplier>)
    ensures TodaysAccountCount(suppliers) == 0 <==>
      forall i :: 0 <= i < |suppliers| ==> suppliers[i].todaysBill <= 0 && suppliers[i].todaysDeposit <= 0
  {
    FilterMembers(suppliers, TradedToday);
    if forall i :: 0 <= i < |suppliers| ==> !TradedToday(suppliers[i]) {
      FilterEmpty(suppliers, TradedToday);
    } else {
      var i :| 0 <= i < |suppliers| && TradedToday(suppliers[i]);
      assert suppliers[i] in Filter(suppliers, TradedToday);
    }
  }
}
