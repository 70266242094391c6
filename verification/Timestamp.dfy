/** The 20-digit timestamps of file names: eight digits of date, six of time of day, six of microseconds. */
module Timestamp {
  import opened Wrappers
  import opened Arithmetic
  import opened Decimal
  import opened Calendar
  import opened DayRange

  datatype Civil = Civil(date: Date, hour: int, minute: int, second: int, micro: int)

  predicate ValidCivil(c: Civil) {
    ValidDate(c.date) && c.date.year <= 9999
    && 0 <= c.hour < 24 && 0 <= c.minute < 60 && 0 <= c.second < 60 && 0 <= c.micro < 1_000_000
  }

  // The UTC fields of an instant, microseconds truncated.
  function CivilOf(t: Instant): (c: Civil)
    ensures ValidCivil(c)
  {
    FourDigitYear(Day(t));
    var seconds := t / 1_000_000_000;
    var minutes := seconds / 60;
    var hours := minutes / 60;
    Civil(DateOf(Day(t)), hours % 24, minutes % 60, seconds % 60, t / 1000 % 1_000_000)
  }

  function Truncated(t: Instant): Instant {
    t - t % 1000
  }

  // Microseconds since 0000-01-01.
  function Micros(day: int, c: Civil): int {
    (((day * 24 + c.hour) * 60 + c.minute) * 60 + c.second) * 1_000_000 + c.micro
  }

  function InstantOf(c: Civil): (t: Instant)
    requires ValidCivil(c)
  {
    ValidDateInRange(c.date);
    Micros(DayNumber(c.date), c) * 1000
  }

  lemma ValidDateInRange(d: Date)
    requires ValidDate(d) && d.year <= 9999
    ensures 0 <= DayNumber(d) < LAST_DAY
  {
    DateOfDayNumber(d);
    BeforeCounts(d, Date(10000, 1, 1));
    LastDay();
  }

  lemma MicrosOfInstant(t: Instant)
    ensures Micros(Day(t), CivilOf(t)) == t / 1000
  {
    var s := t / 1_000_000_000;
    DivDiv(t, 1000, 1_000_000);
    DivDiv(s, 60, 60);
    DivDiv(s, 3600, 24);
    DivDiv(t, 1_000_000_000, 86_400);
    assert s / 60 / 60 == Day(t) * 24 + s / 60 / 60 % 24;
    assert s / 60 == s / 60 / 60 * 60 + s / 60 % 60;
    assert s == s / 60 * 60 + s % 60;
    assert t / 1000 == s * 1_000_000 + t / 1000 % 1_000_000;
  }

  lemma CivilOfInstant(t: Instant)
    ensures InstantOf(CivilOf(t)) == Truncated(t)
  {
    DayNumberOfDate(Day(t));
    MicrosOfInstant(t);
  }

  lemma ClockOfMicros(day: nat, c: Civil, t: nat)
    requires 0 <= c.hour < 24 && 0 <= c.minute < 60 && 0 <= c.second < 60 && 0 <= c.micro < 1_000_000
    requires t == Micros(day, c) * 1000
    ensures t / NANOS_PER_DAY == day
    ensures t / 1_000_000_000 / 60 / 60 % 24 == c.hour && t / 1_000_000_000 / 60 % 60 == c.minute
    ensures t / 1_000_000_000 % 60 == c.second && t / 1000 % 1_000_000 == c.micro
  {
    var s := ((day * 24 + c.hour) * 60 + c.minute) * 60 + c.second;
    assert t / 1_000_000_000 == s;
  }

  lemma InstantOfCivil(c: Civil)
    requires ValidCivil(c)
    ensures CivilOf(InstantOf(c)) == c
  {
    DateOfDayNumber(c.date);
    ClockOfMicros(DayNumber(c.date), c, InstantOf(c));
  }

  // The layout 20060102150405.
  function SecondsText(c: Civil): (s: string)
    requires ValidCivil(c)
    ensures |s| == 14 && AllDigits(s)
  {
    DateText(c.date) + Fixed(c.hour, 2) + Fixed(c.minute, 2) + Fixed(c.second, 2)
  }

  function Stamp(c: Civil): (s: string)
    requires ValidCivil(c)
    ensures |s| == 20 && AllDigits(s)
  {
    SecondsText(c) + Fixed(c.micro, 6)
  }

  function StampOf(t: Instant): (s: string)
    ensures |s| == 20 && AllDigits(s)
  {
    Stamp(CivilOf(t))
  }

  // Two equally long texts compare as two numbers do.
  predicate SameOrder(s: string, s': string, x: int, x': int) {
    |s| == |s'| && (Less(s, s') <==> x < x') && (s == s' <==> x == x')
  }

  lemma {:induction false} LessConcat(s: string, s': string, u: string, u': string)
    requires |s| == |s'| && |u| == |u'|
    ensures Less(s + u, s' + u') <==> Less(s, s') || (s == s' && Less(u, u'))
    ensures s + u == s' + u' <==> s == s' && u == u'
  {
    if s == "" {
      assert s + u == u && s' + u' == u';
    } else {
      LessConcat(s[1..], s'[1..], u, u');
      assert (s + u)[1..] == s[1..] + u && (s' + u')[1..] == s'[1..] + u';
      assert s == [s[0]] + s[1..] && s' == [s'[0]] + s'[1..];
      assert s + u == [s[0]] + (s[1..] + u) && s' + u' == [s'[0]] + (s'[1..] + u');
    }
  }

  // Appending one more fixed-width field keeps the order, in the mixed radix m.
  lemma AppendField(s: string, s': string, x: int, x': int, a: nat, a': nat, w: nat, m: nat)
    requires SameOrder(s, s', x, x') && a < m && a' < m && m <= Pow10(w)
    ensures SameOrder(s + Fixed(a, w), s' + Fixed(a', w), x * m + a, x' * m + a')
  {
    LessConcat(s, s', Fixed(a, w), Fixed(a', w));
    FixedOrder(a, a', w);
    MixedRadix(x, x', a, a', m);
  }

  lemma MixedRadix(x: int, x': int, a: nat, a': nat, m: nat)
    requires a < m && a' < m
    ensures x * m + a < x' * m + a' <==> x < x' || (x == x' && a < a')
    ensures x * m + a == x' * m + a' <==> x == x' && a == a'
  {
    if x < x' {
      MulLe(x + 1, x', m);
    } else if x' < x {
      MulLe(x' + 1, x, m);
    }
  }

  lemma StampSteps(c: Civil, d: Civil, day: int, day': int)
    requires ValidCivil(c) && ValidCivil(d)
    requires SameOrder(DateText(c.date), DateText(d.date), day, day')
    ensures SameOrder(Stamp(c), Stamp(d), Micros(day, c), Micros(day', d))
  {
    Powers();
    AppendField(DateText(c.date), DateText(d.date), day, day', c.hour, d.hour, 2, 24);
    var s, s' := DateText(c.date) + Fixed(c.hour, 2), DateText(d.date) + Fixed(d.hour, 2);
    var x, x' := day * 24 + c.hour, day' * 24 + d.hour;
    AppendField(s, s', x, x', c.minute, d.minute, 2, 60);
    s, s', x, x' := s + Fixed(c.minute, 2), s' + Fixed(d.minute, 2), x * 60 + c.minute, x' * 60 + d.minute;
    AppendField(s, s', x, x', c.second, d.second, 2, 60);
    s, s', x, x' := s + Fixed(c.second, 2), s' + Fixed(d.second, 2), x * 60 + c.second, x' * 60 + d.second;
    AppendField(s, s', x, x', c.micro, d.micro, 6, 1_000_000);
  }

  /** The byte order of stamps is the order of time, and only instants of the same microsecond share a stamp. */
  lemma StampOrder(t: Instant, u: Instant)
    ensures Less(StampOf(t), StampOf(u)) <==> t / 1000 < u / 1000
    ensures StampOf(t) == StampOf(u) <==> t / 1000 == u / 1000
  {
    DayTextOrder(Day(t), Day(u));
    StampSteps(CivilOf(t), CivilOf(u), Day(t), Day(u));
    MicrosOfInstant(t);
    MicrosOfInstant(u);
  }

  // time.Parse with the layout 20060102150405.999999, on the 21-character texts it is given here.
  function ParseTime(value: string): Option<Instant>
    requires |value| == 21 && value[14] == '.'
  {
    if AllDigits(value[..14]) && AllDigits(value[15..]) then
      var c := Civil(
        Date(Number(value[..4]), Number(value[4..6]), Number(value[6..8])),
        Number(value[8..10]), Number(value[10..12]), Number(value[12..14]), Number(value[15..]));
      if ValidCivil(c) then Some(InstantOf(c)) else None
    else None
  }

  // A file name's timestamp field: the dot is put back before parsing.
  function ParseField(field: string): Option<Instant>
    requires |field| == 20
  {
    ParseTime(field[..14] + "." + field[14..])
  }

  // strings.Replace(s, ".", "", 1).
  function RemoveDot(s: string): string {
    if s == "" then "" else if s[0] == '.' then s[1..] else [s[0]] + RemoveDot(s[1..])
  }

  // What the layout's ".999999" prints: trailing zeros and then a bare dot are dropped.
  function TrimZeros(s: string): string {
    if s != "" && s[|s| - 1] == '0' then TrimZeros(s[..|s| - 1]) else s
  }

  function FractionText(micro: nat): string {
    var s := TrimZeros("." + Fixed(micro, 6));
    if s == "." then "" else s
  }

  // timer.UTC().Format("20060102150405.999999").
  function FormatMicros(t: Instant): string {
    SecondsText(CivilOf(t)) + FractionText(CivilOf(t).micro)
  }

  // s is full without some of its trailing zeros.
  predicate LacksZeros(s: string, full: string) {
    |s| <= |full| && s == full[..|s|] && forall i :: |s| <= i < |full| ==> full[i] == '0'
  }

  lemma {:induction false} TrimmedZeros(s: string)
    ensures LacksZeros(TrimZeros(s), s)
    ensures TrimZeros(s) == "" || TrimZeros(s)[|TrimZeros(s)| - 1] != '0'
  {
    if s != "" && s[|s| - 1] == '0' {
      TrimmedZeros(s[..|s| - 1]);
    }
  }

  lemma {:induction false} RemoveFirstDot(digits: string, rest: string)
    requires AllDigits(digits) && (rest == "" || rest[0] == '.')
    ensures RemoveDot(digits + rest) == digits + (if rest == "" then "" else rest[1..])
  {
    if digits == "" {
      assert digits + rest == rest;
    } else {
      RemoveFirstDot(digits[1..], rest);
      assert (digits + rest)[1..] == digits[1..] + rest;
      assert digits == [digits[0]] + digits[1..];
    }
  }

  lemma FractionLacksZeros(micro: nat)
    ensures var s := FractionText(micro);
      (s == "" || s[0] == '.') && LacksZeros(if s == "" then "" else s[1..], Fixed(micro, 6))
  {
    var digits := Fixed(micro, 6);
    TrimmedZeros("." + digits);
    var trimmed := TrimZeros("." + digits);
    assert ("." + digits)[0] != '0';
    assert trimmed[1..] == digits[..|trimmed| - 1];
    forall i | |trimmed| - 1 <= i < 6
      ensures digits[i] == '0'
    {
      assert ("." + digits)[i + 1] == '0';
    }
  }

  /** The layout prints no more than it must: no fraction at all, or one that ends in a digit other than zero. */
  lemma FractionIsShort(micro: nat)
    ensures var s := FractionText(micro); s == "" || (|s| >= 2 && s[0] == '.' && s[|s| - 1] in "123456789")
  {
    var digits := Fixed(micro, 6);
    TrimmedZeros("." + digits);
    FractionLacksZeros(micro);
    var s := FractionText(micro);
    if s != "" && |s| >= 2 {
      assert s[|s| - 1] == digits[|s| - 2];
    }
  }

  lemma PrefixLacksZeros(prefix: string, s: string, full: string)
    requires LacksZeros(s, full)
    ensures LacksZeros(prefix + s, prefix + full)
  {
  }

  lemma WithoutTheDot(t: Instant)
    ensures LacksZeros(RemoveDot(FormatMicros(t)), StampOf(t))
  {
    var c := CivilOf(t);
    var s := FractionText(c.micro);
    FractionLacksZeros(c.micro);
    RemoveFirstDot(SecondsText(c), s);
    PrefixLacksZeros(SecondsText(c), if s == "" then "" else s[1..], Fixed(c.micro, 6));
  }

  /** Always the full 20-digit stamp of the instant. */
  method TimeStringReplace(timer: Instant) returns (timestr: string)
    ensures timestr == StampOf(timer)
  {
    timestr := RemoveDot(FormatMicros(timer));
    WithoutTheDot(timer);
    ghost var full := StampOf(timer);
    while true
      invariant |full| == 20 && LacksZeros(timestr, full)
      decreases 20 - |timestr|
    {
      if |timestr| < 20 {
        timestr := timestr + "0";
      } else {
        break;
      }
    }
  }

  // The numbers a field spells.
  function FieldParts(f: string): Civil
    requires |f| == 20 && AllDigits(f)
  {
    Civil(Date(Number(f[..4]), Number(f[4..6]), Number(f[6..8])),
          Number(f[8..10]), Number(f[10..12]), Number(f[12..14]), Number(f[14..]))
  }

  lemma ParseReadsParts(f: string)
    requires |f| == 20
    ensures ParseField(f) == if AllDigits(f) && ValidCivil(FieldParts(f)) then Some(InstantOf(FieldParts(f))) else None
  {
    var value := f[..14] + "." + f[14..];
    assert value[..14] == f[..14] && value[15..] == f[14..];
    assert f == f[..14] + f[14..];
    assert AllDigits(f) <==> AllDigits(f[..14]) && AllDigits(f[14..]);
    assert value[..4] == f[..4] && value[4..6] == f[4..6] && value[6..8] == f[6..8];
    assert value[8..10] == f[8..10] && value[10..12] == f[10..12] && value[12..14] == f[12..14];
  }

  lemma PartsOfStamp(c: Civil)
    requires ValidCivil(c)
    ensures FieldParts(Stamp(c)) == c
  {
    var f := Stamp(c);
    Powers();
    assert f[..4] == Fixed(c.date.year, 4) && f[4..6] == Fixed(c.date.month, 2) && f[6..8] == Fixed(c.date.day, 2);
    assert f[8..10] == Fixed(c.hour, 2) && f[10..12] == Fixed(c.minute, 2) && f[12..14] == Fixed(c.second, 2);
    assert f[14..] == Fixed(c.micro, 6);
    NumberOfFixed(c.date.year, 4);
    NumberOfFixed(c.date.month, 2);
    NumberOfFixed(c.date.day, 2);
    NumberOfFixed(c.hour, 2);
    NumberOfFixed(c.minute, 2);
    NumberOfFixed(c.second, 2);
    NumberOfFixed(c.micro, 6);
  }

  lemma NumeralOf(f: string, i: nat, j: nat)
    requires i <= j <= |f| && AllDigits(f)
    ensures Fixed(Number(f[i..j]), j - i) == f[i..j]
  {
    FixedOfNumber(f[i..j]);
  }

  lemma DateTextIs(y: string, m: string, d: string)
    requires |y| == 4 && |m| == |d| == 2 && AllDigits(y) && AllDigits(m) && AllDigits(d)
    requires ValidDate(Date(Number(y), Number(m), Number(d)))
    ensures DateText(Date(Number(y), Number(m), Number(d))) == y + m + d
  {
    FixedOfNumber(y);
    FixedOfNumber(m);
    FixedOfNumber(d);
  }

  lemma DateTextOfParts(f: string)
    requires |f| == 20 && AllDigits(f) && ValidDate(FieldParts(f).date)
    ensures DateText(FieldParts(f).date) == f[..8]
  {
    DateTextIs(f[..4], f[4..6], f[6..8]);
    assert f[..8] == f[..4] + f[4..6] + f[6..8];
  }

  lemma SecondsTextOfParts(f: string)
    requires |f| == 20 && AllDigits(f) && ValidCivil(FieldParts(f))
    ensures SecondsText(FieldParts(f)) == f[..14]
  {
    DateTextOfParts(f);
    NumeralOf(f, 8, 10);
    NumeralOf(f, 10, 12);
    NumeralOf(f, 12, 14);
    assert f[..14] == f[..8] + f[8..10] + f[10..12] + f[12..14];
  }

  lemma StampOfParts(f: string)
    requires |f| == 20 && AllDigits(f) && ValidCivil(FieldParts(f))
    ensures Stamp(FieldParts(f)) == f
  {
    SecondsTextOfParts(f);
    assert f[14..] == f[14..20];
    NumeralOf(f, 14, 20);
    assert f == f[..14] + f[14..];
  }

  lemma ParseOfCivil(c: Civil, t: Instant)
    requires ValidCivil(c) && InstantOf(c) == t
    ensures ParseField(Stamp(c)) == Some(t)
  {
    PartsOfStamp(c);
    ParseReadsParts(Stamp(c));
  }

  lemma WholeMicros(c: Civil)
    requires ValidCivil(c)
    ensures InstantOf(c) % 1000 == 0
  {
  }

  lemma StampOfCivil(t: Instant, c: Civil)
    requires CivilOf(t) == c
    ensures StampOf(t) == Stamp(c)
  {
  }

  /** Reading a printed stamp gives back the instant, truncated to microseconds. */
  lemma ParseOfStamp(t: Instant)
    ensures ParseField(StampOf(t)) == Some(Truncated(t))
  {
    var c := CivilOf(t);
    assert InstantOf(c) == Truncated(t) by {
      CivilOfInstant(t);
    }
    assert ParseField(Stamp(c)) == Some(Truncated(t)) by {
      ParseOfCivil(c, Truncated(t));
    }
  }

  /** A field parses only to an instant that prints as that field. */
  lemma StampOfParse(f: string)
    requires |f| == 20 && ParseField(f).Some?
    ensures StampOf(ParseField(f).value) == f && ParseField(f).value % 1000 == 0
  {
    ParseReadsParts(f);
    StampOfParts(f);
    InstantOfCivil(FieldParts(f));
    StampOfCivil(ParseField(f).value, FieldParts(f));
    WholeMicros(FieldParts(f));
  }

  /** The parser accepts exactly the fields that are some instant's stamp. */
  lemma ParsesExactlyStamps(f: string)
    requires |f| == 20
    ensures ParseField(f).Some? <==> exists t: Instant :: StampOf(t) == f
  {
    if ParseField(f).Some? {
      StampOfParse(f);
    }
    if t: Instant :| StampOf(t) == f {
      ParseOfStamp(t);
    }
  }
}
