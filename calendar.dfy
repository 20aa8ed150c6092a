/** Calendar dates as the screens parse them: `new Date("yyyy-MM-dd")` is midnight UTC of
    that day, counted here as a day number from 1970-01-01 in the proleptic Gregorian
    calendar; a text that is not such a date is an invalid date. */
module Calendar {
  import opened Seqs
  import opened Types
  import opened Forms

  /** Days from 0000-01-01 to 1970-01-01 in the proleptic Gregorian calendar. */
  const EpochDays: int := 719528

  predicate LeapYear(y: int)
  {
    y % 4 == 0 && (y % 100 != 0 || y % 400 == 0)
  }

  function DaysInMonth(y: int, m: int): int
    requires 1 <= m <= 12
  {
    if m == 2 then (if LeapYear(y) then 29 else 28)
    else if m == 4 || m == 6 || m == 9 || m == 11 then 30
    else 31
  }

  /** Days of the year y before the first of month m. */
  function DaysBeforeMonth(y: int, m: int): (r: int)
    requires 1 <= m <= 12
    ensures m > 1 ==> r == DaysBeforeMonth(y, m - 1) + DaysInMonth(y, m - 1)
    ensures r == [0, 31, 59, 90, 120, 151, 181, 212, 243, 273, 304, 334][m - 1] + (if m > 2 && LeapYear(y) then 1 else 0)
    decreases m
  {
    if m == 1 then 0 else DaysBeforeMonth(y, m - 1) + DaysInMonth(y, m - 1)
  }

  /** Days from 0000-01-01 to the first of January of the year y (years 0 and on). */
  function DaysBeforeYear(y: nat): int
  {
    365 * y + (y + 3) / 4 - (y + 99) / 100 + (y + 399) / 400
  }

  /** The day number of a calendar date, counted from 1970-01-01. */
  function DayNumber(y: nat, m: int, d: int): int
    requires 1 <= m <= 12
  {
    DaysBeforeYear(y) + DaysBeforeMonth(y, m) + d - 1 - EpochDays
  }

  /** Moving up by one crosses a multiple of k exactly when it lands on one. */
  lemma {:induction false} DivStep(a: int, k: int)
    requires k > 0
    ensures (a + 1) / k - a / k == if (a + 1) % k == 0 then 1 else 0
  {
    var q, r := a / k, a % k;
    assert a == q * k + r && 0 <= r < k;
    if r == k - 1 {
      assert a + 1 == (q + 1) * k;
      DivUnique(a + 1, k, q + 1, 0);
    } else {
      DivUnique(a + 1, k, q, r + 1);
    }
  }

  /** Euclidean division has one quotient and remainder. */
  lemma {:induction false} DivUnique(a: int, k: int, q: int, r: int)
    requires k > 0 && a == q * k + r && 0 <= r < k
    ensures a / k == q && a % k == r
  {
    var q', r' := a / k, a % k;
    assert (q - q') * k == r' - r;
    if q > q' {
      MulAtLeast(q - q', k);
    } else if q < q' {
      MulAtLeast(q' - q, k);
    }
  }

  lemma {:induction false} MulAtLeast(d: int, k: int)
    requires d >= 1 && k > 0
    ensures d * k >= k
  {
    if d > 1 {
      MulAtLeast(d - 1, k);
      assert d * k == (d - 1) * k + k;
    }
  }

  /** A year is 366 days long exactly when it is a leap year. */
  lemma {:induction false} YearLength(y: nat)
    ensures DaysBeforeYear(y + 1) - DaysBeforeYear(y) == if LeapYear(y) then 366 else 365
  {
    var b4 := (y + 4) / 4 - (y + 3) / 4;
    var b100 := (y + 100) / 100 - (y + 99) / 100;
    var b400 := (y + 400) / 400 - (y + 399) / 400;
    DivStep(y + 3, 4);
    ShiftKeepsRemainder(y, 4);
    DivStep(y + 99, 100);
    ShiftKeepsRemainder(y, 100);
    DivStep(y + 399, 400);
    ShiftKeepsRemainder(y, 400);
    assert b4 == if y % 4 == 0 then 1 else 0;
    assert b100 == if y % 100 == 0 then 1 else 0;
    assert b400 == if y % 400 == 0 then 1 else 0;
    if y % 100 == 0 {
      DivUnique(y, 4, (y / 100) * 25, 0);
    }
    if y % 400 == 0 {
      DivUnique(y, 100, (y / 400) * 4, 0);
    }
    assert DaysBeforeYear(y + 1) - DaysBeforeYear(y) == 365 + b4 - b100 + b400;
  }

  /** Adding k does not change the remainder modulo k. */
  lemma {:induction false} ShiftKeepsRemainder(a: int, k: int)
    requires k > 0
    ensures (a + k) % k == a % k
  {
    DivUnique(a + k, k, a / k + 1, a % k);
  }

  /** The last day of a year is followed by January 1 of the next. */
  lemma {:induction false} YearEndNextDay(y: nat)
    ensures DayNumber(y, 12, 31) + 1 == DayNumber(y + 1, 1, 1)
  {
    YearLength(y);
  }

  /** Within a month, and from the last day of a month to the first of the next, the
      calendar's consecutive days get consecutive day numbers. */
  lemma {:induction false} NextDayNumber(y: nat, m: int, d: int)
    requires 1 <= m <= 12 && 1 <= d <= DaysInMonth(y, m)
    ensures d < DaysInMonth(y, m) ==> DayNumber(y, m, d + 1) == DayNumber(y, m, d) + 1
    ensures d == DaysInMonth(y, m) && m < 12 ==> DayNumber(y, m + 1, 1) == DayNumber(y, m, d) + 1
    ensures d == DaysInMonth(y, m) && m == 12 ==> DayNumber(y + 1, 1, 1) == DayNumber(y, m, d) + 1
  {
    if d == DaysInMonth(y, m) && m == 12 {
      YearEndNextDay(y);
    }
  }

  /** The value of the digits s[i..j]. */
  function DigitsAt(s: string, i: nat, j: nat): nat
    requires i <= j <= |s| && AllDigits(s[i..j])
  {
    DigitsValue(s[i..j])
  }

  /** `yyyy-MM-dd` with a month 1 to 12 and a day that exists in that month. */
  predicate IsDateText(s: DateText)
  {
    |s| == 10 && s[4] == '-' && s[7] == '-' &&
    AllDigits(s[..4]) && AllDigits(s[5..7]) && AllDigits(s[8..]) &&
    1 <= DigitsAt(s, 5, 7) <= 12 && 1 <= DigitsAt(s, 8, 10) <= DaysInMonth(DigitsAt(s, 0, 4), DigitsAt(s, 5, 7))
  }

  /** The day of `new Date(s)`; any other text is an invalid date (NaN), which is None. */
  function DateDay(s: DateText): (r: Option<int>)
    ensures r.Some? <==> IsDateText(s)
  {
    if IsDateText(s) then Some(DayNumber(DigitsAt(s, 0, 4), DigitsAt(s, 5, 7), DigitsAt(s, 8, 10))) else None
  }

  /** The Unix epoch is day 0, so a parsed date times the milliseconds of a day is its getTime(). */
  lemma {:induction false} EpochIsDayZero()
    ensures DateDay("1970-01-01") == Some(0)
  {
    var s := "1970-01-01";
    assert s[..4] == "1970" && s[5..7] == "01" && s[8..] == "01" && s[8..10] == "01";
    assert DigitsValue("1970") == 1970 by {
      assert "1970"[..3] == "197" && "197"[..2] == "19" && "19"[..1] == "1" && "1"[..0] == "";
    }
    assert DigitsValue("01") == 1 by {
      assert "01"[..1] == "0" && "0"[..0] == "";
    }
  }

  /** The year of a date text. */
  function YearOf(s: DateText): nat
    requires IsDateText(s)
  {
    DigitsAt(s, 0, 4)
  }

  /** The month of a date text, 1 to 12 (getMonth() counts from 0; only equality of
      months is ever used). */
  function MonthOf(s: DateText): (m: int)
    requires IsDateText(s)
    ensures 1 <= m <= 12
  {
    DigitsAt(s, 5, 7)
  }
}
