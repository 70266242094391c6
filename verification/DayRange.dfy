/** Enumerating the calendar days between two instants. */
module DayRange {
  import opened Wrappers
  import opened Decimal
  import opened Calendar

  const NANOS_PER_DAY: nat := 86_400_000_000_000

  // 10000-01-01, the first day whose year no longer prints in four digits.
  const LAST_DAY: nat := 3_652_425

  // Nanoseconds since 0000-01-01 00:00:00 UTC, for the years 0 to 9999.
  type Instant = t: nat | t < LAST_DAY * NANOS_PER_DAY

  function Day(t: Instant): (d: nat)
    ensures d < LAST_DAY
  {
    t / NANOS_PER_DAY
  }

  lemma LastDay()
    ensures LAST_DAY == DayNumber(Date(10000, 1, 1))
  {
  }

  // A date in the layout 20060102.
  function DateText(d: Date): string
    requires ValidDate(d)
  {
    Fixed(d.year, 4) + Fixed(d.month, 2) + Fixed(d.day, 2)
  }

  function DayText(n: nat): string {
    DateText(DateOf(n))
  }

  function FormatDay(t: Instant): string {
    DayText(Day(t))
  }

  // The days a to b, one string each.
  function DayTexts(a: nat, b: int): seq<string> {
    seq(if b < a then 0 else b - a + 1, i requires 0 <= i => DayText(a + i))
  }

  // A valid date of a four-digit year as one number.
  function DateKey(d: Date): int {
    d.year * 10000 + d.month * 100 + d.day
  }

  lemma Powers()
    ensures Pow10(2) == 100 && Pow10(4) == 10000 && Pow10(6) == 1000000 && Pow10(8) == 100000000
  {
    assert Pow10(4) == 100 * Pow10(2);
    assert Pow10(6) == 100 * Pow10(4);
    assert Pow10(8) == 100 * Pow10(6);
  }

  lemma KeyInRange(d: Date)
    requires ValidDate(d) && d.year <= 9999
    ensures 0 <= DateKey(d) < Pow10(8) && d.month < 100 && d.day < 100
  {
    Powers();
  }

  lemma Joined(a: nat, v: nat, b: nat, w: nat, n: nat)
    requires b < Pow10(w) && n == a * Pow10(w) + b
    ensures Fixed(a, v) + Fixed(b, w) == Fixed(n, v + w)
  {
    FixedConcat(a, v, b, w);
  }

  lemma DateFields(d: Date, v: nat, w: nat)
    requires ValidDate(d) && Pow10(w) == 100
    ensures Fixed(d.year, v) + Fixed(d.month, w) + Fixed(d.day, w) == Fixed(DateKey(d), v + w + w)
  {
    var k := d.year * 100 + d.month;
    Joined(d.year, v, d.month, w, k);
    Joined(k, v + w, d.day, w, DateKey(d));
  }

  lemma DateTextIsKey(d: Date)
    requires ValidDate(d) && d.year <= 9999
    ensures 0 <= DateKey(d) < Pow10(8) && DateText(d) == Fixed(DateKey(d), 8)
  {
    KeyInRange(d);
    DateFields(d, 4, 2);
  }

  /** The text of dates orders them as the calendar does, and tells different dates apart. */
  lemma DateTextOrder(d: Date, e: Date)
    requires ValidDate(d) && ValidDate(e) && d.year <= 9999 && e.year <= 9999
    ensures Less(DateText(d), DateText(e)) <==> Before(d, e)
    ensures DateText(d) == DateText(e) <==> d == e
  {
    DateTextIsKey(d);
    DateTextIsKey(e);
    FixedOrder(DateKey(d), DateKey(e), 8);
  }

  lemma FourDigitYear(n: nat)
    requires n < LAST_DAY
    ensures DateOf(n).year <= 9999
  {
    DayNumberOfDate(n);
    var d := DateOf(n);
    if d.year >= 10000 {
      YearsGrow(10000, d.year);
      MonthsGrow(d.year, 1, d.month);
    }
  }

  lemma DayTextOrder(a: nat, b: nat)
    requires a < LAST_DAY && b < LAST_DAY
    ensures Less(DayText(a), DayText(b)) <==> a < b
    ensures DayText(a) == DayText(b) <==> a == b
  {
    FourDigitYear(a);
    FourDigitYear(b);
    DateTextOrder(DateOf(a), DateOf(b));
    OrderOfDates(a, b);
    OrderOfDates(b, a);
  }

  predicate StrictlyIncreasing(texts: seq<string>) {
    forall i, j :: 0 <= i < j < |texts| ==> Less(texts[i], texts[j]) && texts[i] != texts[j]
  }

  /** The list holds a date's text exactly when the date lies between the first and the last, and holds it
      once, in calendar order. */
  lemma EveryDayOnceInOrder(a: nat, b: nat, d: Date)
    requires a <= b < LAST_DAY && ValidDate(d) && d.year <= 9999
    ensures DateText(d) in DayTexts(a, b) <==> !Before(d, DateOf(a)) && !Before(DateOf(b), d)
    ensures StrictlyIncreasing(DayTexts(a, b))
  {
    InOrder(a, b);
    if DateText(d) in DayTexts(a, b) {
      InTheListMeansBetween(a, b, d);
    } else if !Before(d, DateOf(a)) && !Before(DateOf(b), d) {
      BetweenMeansInTheList(a, b, d);
    }
  }

  lemma InOrder(a: nat, b: nat)
    requires a <= b < LAST_DAY
    ensures StrictlyIncreasing(DayTexts(a, b))
  {
    var texts := DayTexts(a, b);
    forall i, j | 0 <= i < j < |texts|
      ensures Less(texts[i], texts[j]) && texts[i] != texts[j]
    {
      DayTextOrder(a + i, a + j);
    }
  }

  lemma BetweenCounts(a: nat, b: nat, n: nat)
    ensures !Before(DateOf(n), DateOf(a)) && !Before(DateOf(b), DateOf(n)) <==> a <= n <= b
  {
    OrderOfDates(n, a);
    OrderOfDates(b, n);
  }

  lemma SameText(d: Date, n: nat)
    requires ValidDate(d) && d.year <= 9999 && n < LAST_DAY && DayText(n) == DateText(d)
    ensures d == DateOf(n)
  {
    FourDigitYear(n);
    DateTextOrder(d, DateOf(n));
  }

  lemma InTheListMeansBetween(a: nat, b: nat, d: Date)
    requires a <= b < LAST_DAY && ValidDate(d) && d.year <= 9999 && DateText(d) in DayTexts(a, b)
    ensures !Before(d, DateOf(a)) && !Before(DateOf(b), d)
  {
    var i :| 0 <= i < |DayTexts(a, b)| && DayTexts(a, b)[i] == DateText(d);
    SameText(d, a + i);
    BetweenCounts(a, b, a + i);
  }

  lemma DayInTheList(a: nat, b: nat, n: nat)
    requires a <= n <= b
    ensures DayText(n) in DayTexts(a, b)
  {
    assert DayTexts(a, b)[n - a] == DayText(n);
  }

  lemma BetweenMeansInTheList(a: nat, b: nat, d: Date)
    requires a <= b && ValidDate(d) && !Before(d, DateOf(a)) && !Before(DateOf(b), d)
    ensures DateText(d) in DayTexts(a, b)
  {
    DateOfDayNumber(d);
    var n: nat := DayNumber(d);
    BetweenCounts(a, b, n);
    DayInTheList(a, b, n);
  }

  // AddDate(0, 0, 1), and Add(24 * time.Hour): the same time on the next day of the calendar.
  function OneDayLater(t: Instant): (u: Instant)
    requires Day(t) + 1 < LAST_DAY
    ensures Day(u) == Day(t) + 1 && DateOf(Day(u)) == NextDay(DateOf(Day(t)))
  {
    t + NANOS_PER_DAY
  }

  lemma SameDayOrLater(t: Instant, u: Instant)
    requires t <= u
    ensures Day(t) <= Day(u)
  {
  }

  lemma OneMoreDay(a: nat, b: nat)
    requires a <= b + 1
    ensures DayTexts(a, b + 1) == DayTexts(a, b) + [DayText(b + 1)]
  {
  }

  // Comparing the printed days compares the days.
  predicate PrintsEarlier(t: Instant, u: Instant)
    ensures PrintsEarlier(t, u) <==> Day(t) < Day(u)
  {
    DayTextOrder(Day(t), Day(u));
    Less(FormatDay(t), FormatDay(u))
  }

  predicate PrintsSame(t: Instant, u: Instant)
    ensures PrintsSame(t, u) <==> Day(t) == Day(u)
  {
    DayTextOrder(Day(t), Day(u));
    FormatDay(t) == FormatDay(u)
  }

  /** All days from the first to the last; nothing when a date does not parse or the last day is earlier. */
  method GetBetweenDates(startdate: Option<Instant>, enddate: Option<Instant>) returns (d: seq<string>)
    ensures startdate.None? || enddate.None? ==> d == []
    ensures startdate.Some? && enddate.Some? ==> d == DayTexts(Day(startdate.value), Day(enddate.value))
  {
    d := [];
    if startdate.None? || enddate.None? {
      return;
    }
    var date: Instant, date2: Instant := startdate.value, enddate.value;
    ghost var first, last := Day(date), Day(date2);
    if PrintsSame(date, date2) {
      d := d + [FormatDay(date)];
      return;
    }
    if date2 < date {
      SameDayOrLater(date2, date);
      return;
    }
    SameDayOrLater(date, date2);
    d := d + [FormatDay(date)];
    while true
      invariant first <= Day(date) < last
      invariant d == DayTexts(first, Day(date))
      decreases last - Day(date)
    {
      OneMoreDay(first, Day(date));
      date := OneDayLater(date);
      d := d + [FormatDay(date)];
      if PrintsSame(date, date2) {
        break;
      }
    }
  }

  /** The same list with its length; a last day before the first yields the first day alone. */
  method GetDaysDiffer(from: Option<Instant>, to: Option<Instant>) returns (day: seq<string>, index: nat, ok: bool)
    ensures ok <==> from.Some? && to.Some?
    ensures !ok ==> day == [] && index == 0
    ensures ok ==> index == |day|
    ensures ok && Day(from.value) <= Day(to.value) ==>
              day == DayTexts(Day(from.value), Day(to.value)) && index == Day(to.value) - Day(from.value) + 1
    ensures ok && Day(to.value) < Day(from.value) ==> day == [DayText(Day(from.value))]
  {
    day, index := [], 0;
    if from.None? || to.None? {
      return day, index, false;
    }
    var t1: Instant, t2: Instant := from.value, to.value;
    ghost var first, last := Day(t1), Day(t2);
    day := day + [FormatDay(t1)];
    index := index + 1;
    while PrintsEarlier(t1, t2)
      invariant first <= Day(t1) && (first <= last ==> Day(t1) <= last) && (last < first ==> Day(t1) == first)
      invariant index == |day| == Day(t1) - first + 1
      invariant day == DayTexts(first, Day(t1))
      decreases last - Day(t1)
    {
      OneMoreDay(first, Day(t1));
      t1 := OneDayLater(t1);
      day := day + [FormatDay(t1)];
      index := index + 1;
    }
    ok := true;
  }
}
