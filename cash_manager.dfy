/** The cash screen (src/components/CashTracking/CashTrackingManager.tsx): the filtered
    list, the signed totals, the per-source overview and the low-cash alert. */
module CashManager {
  import opened Seqs
  import opened Types
  import opened CashForm

  /** The sources in the order of the overview. */
  const AllSources: seq<CashSource> := [Home, MealPayment, Match, Shop, ExpenseSource, Other]

  /** Below this much cash the alert shows. */
  const LowCashLimit: int := 1000

  function CashSourceOf(c: CashEntry): CashSource { c.source }
  function IsIncomeEntry(c: CashEntry): bool { c.amount > 0 }
  function IsOutgoEntry(c: CashEntry): bool { c.amount < 0 }

  /** An entry is listed when its description contains the search (ignoring case), the
      source filter is 'all' or its source, and the date filter is empty or its date. */
  predicate CashShown(search: string, source: Choice<CashSource>, date: string, c: CashEntry)
  {
    MatchesText(c.description, search) && Chosen(source, c.source) && (date == "" || c.date == date)
  }

  function CashShownBy(search: string, source: Choice<CashSource>, date: string): CashEntry -> bool
  {
    (c: CashEntry) => CashShown(search, source, date, c)
  }

  /** filteredEntries */
  function FilteredEntries(entries: seq<CashEntry>, search: string, source: Choice<CashSource>, date: string): (r: seq<CashEntry>)
    ensures |r| <= |entries|
    ensures forall c :: c in r <==> c in entries && CashShown(search, source, date, c)
  {
    FilterMembers(entries, CashShownBy(search, source, date));
    Filter(entries, CashShownBy(search, source, date))
  }

  /** totalCash: the signed sum of every entry. */
  function TotalCash(entries: seq<CashEntry>): int
  {
    Sum(entries, CashAmount)
  }

  /** todayTotal */
  function CashTodayTotal(entries: seq<CashEntry>, today: DateText): int
  {
    Sum(Filter(entries, CashDateIs(today)), CashAmount)
  }

  /** totalIncome: the positive entries. */
  function TotalIncome(entries: seq<CashEntry>): int
  {
    Sum(Filter(entries, IsIncomeEntry), CashAmount)
  }

  /** totalExpense: Math.abs of the sum of the negative entries. */
  function TotalOutgo(entries: seq<CashEntry>): int
  {
    Abs(Sum(Filter(entries, IsOutgoEntry), CashAmount))
  }

  /** The positive and negative entries make up the whole signed sum (zero entries add
      nothing); the positive part is never negative and the negative part never positive. */
  lemma {:induction false} SignedSplit(entries: seq<CashEntry>)
    ensures Sum(Filter(entries, IsIncomeEntry), CashAmount) + Sum(Filter(entries, IsOutgoEntry), CashAmount) == TotalCash(entries)
    ensures Sum(Filter(entries, IsIncomeEntry), CashAmount) >= 0
    ensures Sum(Filter(entries, IsOutgoEntry), CashAmount) <= 0
  {
    if entries != [] {
      SignedSplit(entries[1..]);
      SumFilterCons(entries, IsIncomeEntry, CashAmount);
      SumFilterCons(entries, IsOutgoEntry, CashAmount);
    }
  }

  /** totalCash = totalIncome − totalExpense, with both parts non-negative. */
  lemma {:induction false} CashBalances(entries: seq<CashEntry>)
    ensures TotalCash(entries) == TotalIncome(entries) - TotalOutgo(entries)
    ensures TotalIncome(entries) >= 0 && TotalOutgo(entries) >= 0
  {
    SignedSplit(entries);
  }

  /** One card of the source overview. */
  function SourceTotal(entries: seq<CashEntry>, s: CashSource): int
  {
    KeyTotal(entries, CashSourceOf, CashAmount, s)
  }

  lemma {:induction false} SourceListed(s: CashSource)
    ensures s in AllSources
  {
    match s
    case Home => assert AllSources[0] == s;
    case MealPayment => assert AllSources[1] == s;
    case Match => assert AllSources[2] == s;
    case Shop => assert AllSources[3] == s;
    case ExpenseSource => assert AllSources[4] == s;
    case Other => assert AllSources[5] == s;
  }

  /** The six source cards add up to totalCash, since every entry has one of the six sources. */
  lemma {:induction false} SourceTotalsAddUp(entries: seq<CashEntry>)
    ensures SourceTotal(entries, Home) + SourceTotal(entries, MealPayment) + SourceTotal(entries, Match) +
            SourceTotal(entries, Shop) + SourceTotal(entries, ExpenseSource) + SourceTotal(entries, Other)
            == TotalCash(entries)
  {
    forall i | 0 <= i < |entries| ensures CashSourceOf(entries[i]) in AllSources {
      SourceListed(entries[i].source);
    }
    SumByKeysAll(entries, CashSourceOf, CashAmount, AllSources);
    SixKeys(entries, CashSourceOf, CashAmount, Home, MealPayment, Match, Shop, ExpenseSource, Other);
  }

  /** The low-cash alert. */
  predicate LowCash(entries: seq<CashEntry>)
  {
    TotalCash(entries) < LowCashLimit
  }

  /** Adding an accepted income never brings the alert on, and an accepted expense never
      switches it off. */
  lemma {:induction false} EntryMovesAlert(entries: seq<CashEntry>, c: CashEntry)
    ensures TotalCash(entries + [c]) == TotalCash(entries) + c.amount
    ensures c.amount > 0 && LowCash(entries + [c]) ==> LowCash(entries)
    ensures c.amount < 0 && LowCash(entries) ==> LowCash(entries + [c])
  {
    SumAppend(entries, [c], CashAmount);
    assert [c][1..] == [];
  }
}
