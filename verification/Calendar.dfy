/** The Gregorian calendar that Go's time package prints and parses, as far as the repository uses it. */
module Calendar {
  import opened Arithmetic

  datatype Date = Date(year: int, month: int, day: int)

  predicate IsLeap(y: int) {
    y % 4 == 0 && (y % 100 != 0 || y % 400 == 0)
  }

  function DaysIn(y: int, m: int): int {
    if m == 2 then (if IsLeap(y) then 29 else 28)
    else if m == 4 || m == 6 || m == 9 || m == 11 then 30
    else 31
  }

  predicate ValidDate(d: Date) {
    d.year >= 0 && 1 <= d.month <= 12 && 1 <= d.day <= DaysIn(d.year, d.month)
  }

  function NextDay(d: Date): Date {
    if d.day < DaysIn(d.year, d.month) then d.(day := d.day + 1)
    else if d.month < 12 then Date(d.year, d.month + 1, 1)
    else Date(d.year + 1, 1, 1)
  }

  // The date n days after 0000-01-01, counted day by day.
  function DateOf(n: nat): (d: Date)
    ensures ValidDate(d)
  {
    if n == 0 then Date(0, 1, 1) else NextDay(DateOf(n - 1))
  }

  // The same count in closed form.
  function DaysBeforeYear(y: int): int {
    365 * y + (y + 3) / 4 - (y + 99) / 100 + (y + 399) / 400
  }

  function DaysBeforeMonth(y: int, m: int): int
    decreases m
  {
    if m <= 1 then 0 else DaysBeforeMonth(y, m - 1) + DaysIn(y, m - 1)
  }

  function DayNumber(d: Date): int {
    DaysBeforeYear(d.year) + DaysBeforeMonth(d.year, d.month) + d.day - 1
  }

  // Rounding up to a multiple of m steps up exactly at the multiples.
  lemma RoundUpStep(y: nat, m: nat)
    requires m > 0
    ensures (y + m) / m == (y + m - 1) / m + (if y % m == 0 then 1 else 0)
  {
    var q, r := y / m, y % m;
    assert y == m * q + r;
    assert (q + 1) * m == m * q + m;
    QuotientIs(y + m, m, q + 1, r);
    if r == 0 {
      assert m * q == q * m;
      QuotientIs(y + m - 1, m, q, m - 1);
    } else {
      QuotientIs(y + m - 1, m, q + 1, r - 1);
    }
  }

  lemma MultipleOfMultiple(y: nat, a: nat, b: nat)
    requires a > 0 && b > 0 && a * b > 0 && y % (a * b) == 0
    ensures y % a == 0
  {
    var q := y / (a * b);
    assert y == (a * b) * q == (b * q) * a;
    QuotientIs(y, a, b * q, 0);
  }

  lemma YearStep(y: int)
    requires y >= 0
    ensures DaysBeforeYear(y + 1) == DaysBeforeYear(y) + (if IsLeap(y) then 366 else 365)
  {
    RoundUpStep(y, 4);
    RoundUpStep(y, 100);
    RoundUpStep(y, 400);
    if y % 100 == 0 {
      MultipleOfMultiple(y, 4, 25);
    }
    if y % 400 == 0 {
      MultipleOfMultiple(y, 100, 4);
    }
  }

  lemma YearEnd(y: int)
    ensures DaysBeforeMonth(y, 13) == if IsLeap(y) then 366 else 365
  {
    assert DaysBeforeMonth(y, 4) == DaysBeforeMonth(y, 3) + 31 == DaysBeforeMonth(y, 2) + DaysIn(y, 2) + 31;
    assert DaysBeforeMonth(y, 7) == DaysBeforeMonth(y, 6) + 30 == DaysBeforeMonth(y, 5) + 61
        == DaysBeforeMonth(y, 4) + 91;
    assert DaysBeforeMonth(y, 10) == DaysBeforeMonth(y, 9) + 30 == DaysBeforeMonth(y, 8) + 61
        == DaysBeforeMonth(y, 7) + 92;
    assert DaysBeforeMonth(y, 13) == DaysBeforeMonth(y, 12) + 31 == DaysBeforeMonth(y, 11) + 61
        == DaysBeforeMonth(y, 10) + 92;
  }

  /** The days before a month in the usual closed form, which fixes the length of every single month. */
  lemma DaysBeforeMonthClosed(y: int, m: int)
    requires 1 <= m <= 13
    ensures DaysBeforeMonth(y, m) ==
            if m <= 2 then 31 * (m - 1) else (153 * (m - 3) + 2) / 5 + (if IsLeap(y) then 60 else 59)
  {
    YearEnd(y);
    assert DaysBeforeMonth(y, 3) == DaysBeforeMonth(y, 2) + DaysIn(y, 2);
    assert DaysBeforeMonth(y, 5) == DaysBeforeMonth(y, 4) + 30 == DaysBeforeMonth(y, 3) + 61;
    assert DaysBeforeMonth(y, 8) == DaysBeforeMonth(y, 7) + 31;
    assert DaysBeforeMonth(y, 7) == DaysBeforeMonth(y, 6) + 30 == DaysBeforeMonth(y, 5) + 61;
    assert DaysBeforeMonth(y, 11) == DaysBeforeMonth(y, 10) + 31 == DaysBeforeMonth(y, 9) + 61
        == DaysBeforeMonth(y, 8) + 92;
    assert DaysBeforeMonth(y, 13) == DaysBeforeMonth(y, 12) + 31 == DaysBeforeMonth(y, 11) + 61;
  }

  lemma NextDayCounts(d: Date)
    requires ValidDate(d)
    ensures ValidDate(NextDay(d)) && DayNumber(NextDay(d)) == DayNumber(d) + 1
  {
    if d.day == DaysIn(d.year, d.month) && d.month == 12 {
      YearStep(d.year);
      YearEnd(d.year);
      assert DaysBeforeMonth(d.year, 13) == DaysBeforeMonth(d.year, 12) + 31;
    }
  }

  /** Counting days one by one agrees with the closed form, across months, years and leap years. */
  lemma {:induction false} DayNumberOfDate(n: nat)
    ensures DayNumber(DateOf(n)) == n
  {
    if n > 0 {
      DayNumberOfDate(n - 1);
      NextDayCounts(DateOf(n - 1));
    }
  }

  lemma {:induction false} MonthsGrow(y: int, a: int, b: int)
    requires 1 <= a <= b
    ensures DaysBeforeMonth(y, a) <= DaysBeforeMonth(y, b)
    ensures a < b ==> DaysBeforeMonth(y, a) + DaysIn(y, a) <= DaysBeforeMonth(y, b)
    decreases b
  {
    if a < b {
      MonthsGrow(y, a, b - 1);
    }
  }

  lemma {:induction false} YearsGrow(a: int, b: int)
    requires 0 <= a <= b
    ensures DaysBeforeYear(a) <= DaysBeforeYear(b)
    ensures a < b ==> DaysBeforeYear(a) + (if IsLeap(a) then 366 else 365) <= DaysBeforeYear(b)
    decreases b
  {
    if a < b {
      YearsGrow(a, b - 1);
      YearStep(b - 1);
    }
  }

  // Dates in calendar order.
  predicate Before(d: Date, e: Date) {
    d.year < e.year || (d.year == e.year && (d.month < e.month || (d.month == e.month && d.day < e.day)))
  }

  lemma BeforeCounts(d: Date, e: Date)
    requires ValidDate(d) && ValidDate(e) && Before(d, e)
    ensures DayNumber(d) < DayNumber(e)
  {
    if d.year < e.year {
      YearsGrow(d.year, e.year);
      MonthsGrow(d.year, d.month, 13);
      YearEnd(d.year);
      MonthsGrow(e.year, 1, e.month);
    } else {
      MonthsGrow(d.year, d.month, e.month);
    }
  }

  /** Every valid date is the date of its day number, and calendar order is the order of day numbers. */
  lemma DateOfDayNumber(d: Date)
    requires ValidDate(d)
    ensures DayNumber(d) >= 0 && DateOf(DayNumber(d)) == d
  {
    MonthsGrow(d.year, 1, d.month);
    YearsGrow(0, d.year);
    var e := DateOf(DayNumber(d));
    DayNumberOfDate(DayNumber(d));
    if Before(d, e) {
      BeforeCounts(d, e);
    } else if Before(e, d) {
      BeforeCounts(e, d);
    }
  }

  lemma OrderOfDates(a: nat, b: nat)
    ensures a < b <==> Before(DateOf(a), DateOf(b))
  {
    DayNumberOfDate(a);
    DayNumberOfDate(b);
    if a < b && !Before(DateOf(a), DateOf(b)) && DateOf(a) != DateOf(b) {
      BeforeCounts(DateOf(b), DateOf(a));
    }
    if Before(DateOf(a), DateOf(b)) {
      BeforeCounts(DateOf(a), DateOf(b));
    }
  }
}
