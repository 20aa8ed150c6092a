/** The expenses screen (src/components/Expenses/ExpenseManager.tsx): the filtered list, the
    totals, the per-category overview over the fixed category list, and the average. */
module ExpenseManager {
  import opened Seqs
  import opened Types

  const RiceLentils: string := "চাল-ডাল"
  const Vegetables: string := "সবজি"
  const FishMeat: string := "মাছ-মাংস"
  const OilSpice: string := "তেল-মসলা"
  const Gas: string := "গ্যাস"
  const Electricity: string := "বিদ্যুৎ"
  const Water: string := "পানি"
  const OtherCategory: string := "অন্যান্য"

  /** EXPENSE_CATEGORIES (constants.ts). */
  const Categories: seq<string> := [RiceLentils, Vegetables, FishMeat, OilSpice, Gas, Electricity, Water, OtherCategory]

  function ExpenseCategory(e: Expense): string { e.category }

  /** An expense is listed when its item or its category contains the search (ignoring
      case), the category filter is 'all' or its category, and the date filter is empty or its date. */
  predicate ExpenseShown(search: string, category: Choice<string>, date: string, e: Expense)
  {
    (MatchesText(e.item, search) || MatchesText(e.category, search)) && Chosen(category, e.category) &&
    (date == "" || e.date == date)
  }

  function ExpenseShownBy(search: string, category: Choice<string>, date: string): Expense -> bool
  {
    (e: Expense) => ExpenseShown(search, category, date, e)
  }

  /** filteredExpenses */
  function FilteredExpenses(expenses: seq<Expense>, search: string, category: Choice<string>, date: string): (r: seq<Expense>)
    ensures |r| <= |expenses|
    ensures forall e :: e in r <==> e in expenses && ExpenseShown(search, category, date, e)
  {
    FilterMembers(expenses, ExpenseShownBy(search, category, date));
    Filter(expenses, ExpenseShownBy(search, category, date))
  }

  /** totalExpenses */
  function TotalExpenses(expenses: seq<Expense>): int
  {
    Sum(expenses, ExpenseTotal)
  }

  /** todayTotal */
  function ExpenseTodayTotal(expenses: seq<Expense>, today: DateText): int
  {
    Sum(Filter(expenses, ExpenseDateIs(today)), ExpenseTotal)
  }

  /** Today's expenses and the others make up the whole total. */
  lemma {:induction false} TodayPartOfTotal(expenses: seq<Expense>, today: DateText)
    ensures ExpenseTodayTotal(expenses, today) + Sum(Filter(expenses, Not(ExpenseDateIs(today))), ExpenseTotal) == TotalExpenses(expenses)
  {
    FilterSplitSum(expenses, ExpenseDateIs(today), ExpenseTotal);
  }

  /** One card of the category overview: its total and its count. */
  function CategoryTotal(expenses: seq<Expense>, c: string): int
  {
    KeyTotal(expenses, ExpenseCategory, ExpenseTotal, c)
  }

  function CategoryCount(expenses: seq<Expense>, c: string): nat
  {
    |Filter(expenses, KeyIs(ExpenseCategory, c))|
  }

  /** The eight category cards add up to totalExpenses whenever every expense's category
      is one of the eight (the form's select offers only those). */
  lemma {:induction false} CategoryTotalsAddUp(expenses: seq<Expense>)
    requires forall i :: 0 <= i < |expenses| ==> expenses[i].category in Categories
    ensures CategoryTotal(expenses, RiceLentils) + CategoryTotal(expenses, Vegetables) +
            CategoryTotal(expenses, FishMeat) + CategoryTotal(expenses, OilSpice) +
            CategoryTotal(expenses, Gas) + CategoryTotal(expenses, Electricity) +
            CategoryTotal(expenses, Water) + CategoryTotal(expenses, OtherCategory) == TotalExpenses(expenses)
  {
    assert Distinct(Categories);
    assert forall i :: 0 <= i < |expenses| ==> ExpenseCategory(expenses[i]) in Categories;
    SumByKeysAll(expenses, ExpenseCategory, ExpenseTotal, Categories);
    EightKeys(expenses, ExpenseCategory, ExpenseTotal, RiceLentils, Vegetables, FishMeat, OilSpice, Gas,
              Electricity, Water, OtherCategory);
  }

  /** An expense outside the list is missing from the overview: its amount is not on any card. */
  lemma {:induction false} UnlistedCategoryMissed(e: Expense)
    requires e.category !in Categories
    ensures SumByKeys([e], ExpenseCategory, ExpenseTotal, Categories) == 0
  {
    assert Distinct(Categories);
    SumByKeysCons([e], ExpenseCategory, ExpenseTotal, Categories);
    SumByKeysEmpty(ExpenseCategory, ExpenseTotal, Categories);
  }

  /** `expenses.length > 0 ? Math.round(totalExpenses / expenses.length) : 0`, on whole
      numbers: the quotient rounded half up. */
  function Average(total: int, count: nat): (avg: int)
    ensures count == 0 ==> avg == 0
  {
    if count > 0 then (2 * total + count) / (2 * count) else 0
  }

  /** The average is the whole number nearest to total / count, halves rounded up:
      avg − 1/2 ≤ total / count < avg + 1/2. */
  lemma {:induction false} AverageNearest(total: int, count: nat)
    requires count > 0
    ensures 2 * count * Average(total, count) <= 2 * total + count < 2 * count * Average(total, count) + 2 * count
  {
    var q := (2 * total + count) / (2 * count);
    var r := (2 * total + count) % (2 * count);
    assert 2 * total + count == (2 * count) * q + r && 0 <= r < 2 * count;
  }
}
