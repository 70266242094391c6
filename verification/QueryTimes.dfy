/** Reading the two times of a history query, and what the link in an answer asks for. */
module QueryTimes {
  import opened Wrappers
  import opened Arithmetic
  import opened Decimal
  import opened DayRange
  import opened FileNames
  import opened SensorItems

  // Nanoseconds since 0000-01-01; a time with a zone may lie beyond the year 9999 of UTC.
  type Time = int

  function OctalDigits(s: string): (n: nat)
    requires AllDigits(s)
  {
    if s == "" then 0 else OctalDigits(s[..|s| - 1]) * 8 + (s[|s| - 1] - '0') as nat
  }

  predicate IsOctal(s: string) {
    forall i :: 0 <= i < |s| ==> '0' <= s[i] <= '7'
  }

  // cast.ToInt64 of a text of digits: a leading zero makes it octal, and what cannot be read is 0.
  function ToInt64(s: string): nat
    requires s != "" && AllDigits(s)
  {
    if s[0] != '0' then (if Number(s) < TWO63 then Number(s) else 0)
    else if IsOctal(s) && OctalDigits(s) < TWO63 then OctalDigits(s)
    else 0
  }

  // time.Unix(0, v * unit): the product is an int64 and wraps.
  function UnixTime(v: nat, unit: nat): Time {
    EPOCH + Signed64(v * unit % TWO64)
  }

  // A text of digits is a number of seconds, milliseconds, microseconds or nanoseconds, by its length.
  function DigitTime(s: string): Option<Time>
    requires AllDigits(s)
  {
    if |s| == 10 then Some(EPOCH + ToInt64(s) * 1_000_000_000)
    else if |s| == 13 then Some(UnixTime(ToInt64(s), 1_000_000))
    else if |s| == 16 then Some(UnixTime(ToInt64(s), 1_000))
    else if |s| == 19 then Some(UnixTime(ToInt64(s), 1))
    else None
  }

  // strings.ReplaceAll(s, " ", "T"), and the default time zone for a text that is too short to have one.
  function WithZone(s: string): string {
    var t := seq(|s|, i requires 0 <= i < |s| => if s[i] == ' ' then 'T' else s[i]);
    if |t| < 20 then t + "+08:00" else t
  }

  // parse is time.Parse(time.RFC3339, ...); a time before 1970 is refused.
  function TextTime(s: string, parse: string -> Option<Time>): Option<Time> {
    var t := parse(WithZone(s));
    if t.None? || t.value < EPOCH then None else t
  }

  // The two times of a query; None is a bad request. Both are digits of one length, or both are read as text.
  function ReadTimes(from: string, to: string, parse: string -> Option<Time>): Option<(Time, Time)> {
    if AllDigits(from) && AllDigits(to) then
      if |from| != |to| || DigitTime(from).None? || DigitTime(to).None? then None
      else Some((DigitTime(from).value, DigitTime(to).value))
    else
      var t1, t2 := TextTime(from, parse), TextTime(to, parse);
      if t1.None? || t2.None? then None else Some((t1.value, t2.value))
  }

  predicate InYears(t: Time) {
    0 <= t < LAST_DAY * NANOS_PER_DAY
  }

  // A time printed as 2006-01-02 15:04:05 and parsed again: a year beyond 9999 does not parse.
  function Reparsed(t: Time): Option<Instant> {
    if InYears(t) then Some(t - t % 1_000_000_000) else None
  }

  lemma ReparsedDay(t: Time)
    requires InYears(t)
    ensures Day(Reparsed(t).value) == Day(t)
  {
    var q := t / 1_000_000_000;
    var whole := t - t % 1_000_000_000;
    assert whole == q * 1_000_000_000;
    QuotientIs(whole, 1_000_000_000, q, 0);
    DivDiv(whole, 1_000_000_000, 86_400);
    DivDiv(t, 1_000_000_000, 86_400);
  }

  // ---------- numbers with a leading zero ----------

  lemma {:induction false} OctalIsLess(s: string)
    requires AllDigits(s) && IsOctal(s)
    ensures OctalDigits(s) <= Number(s)
    ensures OctalDigits(s) == Number(s) <==> Number(s) < 8
  {
    if s != "" {
      OctalIsLess(s[..|s| - 1]);
    }
  }

  lemma {:induction false} NotOctal(s: string)
    requires AllDigits(s) && !IsOctal(s)
    ensures Number(s) >= 8
  {
    if IsOctal(s[..|s| - 1]) {
      assert s[|s| - 1] > '7';
    } else {
      NotOctal(s[..|s| - 1]);
    }
  }

  /** A text of digits is read as the number it spells exactly when it fits an int64 and has no leading zero, or
      spells less than eight: a time in seconds before 2001-09-09, with its leading zero, is misread. */
  lemma ReadAsSpelled(s: string)
    requires s != "" && AllDigits(s)
    ensures ToInt64(s) == Number(s) <==> if s[0] != '0' then Number(s) < TWO63 else Number(s) < 8
  {
    if s[0] != '0' {
      LeadingDigit(s);
    } else if IsOctal(s) {
      OctalIsLess(s);
    } else {
      NotOctal(s);
    }
  }

  lemma {:induction false} LeadingDigit(s: string)
    requires s != "" && AllDigits(s) && s[0] != '0'
    ensures Number(s) >= Pow10(|s| - 1)
  {
    if |s| > 1 {
      LeadingDigit(s[..|s| - 1]);
    } else {
      assert s[..0] == "";
    }
  }

  // ---------- units and zones ----------

  lemma OneZero(s: string)
    requires AllDigits(s)
    ensures AllDigits(s + "0") && Number(s + "0") == 10 * Number(s)
  {
    assert (s + "0")[..|s|] == s;
  }

  lemma ThreeZeros(s: string)
    requires AllDigits(s)
    ensures AllDigits(s + "000") && Number(s + "000") == 1000 * Number(s)
  {
    OneZero(s);
    OneZero(s + "0");
    OneZero(s + "0" + "0");
    assert s + "000" == s + "0" + "0" + "0";
  }

  // What one of a text of so many digits is in nanoseconds: a second, a millisecond, a microsecond or a nanosecond.
  function Unit(length: nat): nat {
    if length == 10 then 1_000_000_000 else if length == 13 then 1_000_000 else if length == 16 then 1_000 else 1
  }

  /** The unit of a time of digits goes by the length, and the time is exact without a leading zero and as long as its
      nanoseconds fit an int64. */
  lemma DigitsAreRead(s: string)
    requires AllDigits(s) && (|s| == 10 || |s| == 13 || |s| == 16 || |s| == 19) && s[0] != '0'
    requires Number(s) * Unit(|s|) < TWO63
    ensures DigitTime(s) == Some(EPOCH + Number(s) * Unit(|s|))
  {
    AtLeast(Number(s), Unit(|s|));
    if |s| != 10 {
      NoWrap(Number(s), Unit(|s|));
    }
  }

  lemma AtLeast(n: nat, unit: nat)
    requires unit >= 1
    ensures n <= n * unit
  {
    MulLe(1, unit, n);
  }

  /** The units agree: with three more zeros, in the next smaller unit, a time is the same. */
  lemma UnitsAgree(s: string)
    requires AllDigits(s) && (|s| == 10 || |s| == 13 || |s| == 16) && s[0] != '0'
    requires Number(s) * Unit(|s|) < TWO63
    ensures AllDigits(s + "000") && DigitTime(s + "000") == DigitTime(s)
  {
    DigitsAreRead(s);
    ThreeZeros(s);
    SmallerUnit(Number(s), |s|);
    DigitsAreRead(s + "000");
  }

  lemma SmallerUnit(n: nat, length: nat)
    requires length == 10 || length == 13 || length == 16
    ensures 1000 * n * Unit(length + 3) == n * Unit(length)
  {
  }

  predicate NoSpace(s: string) {
    ' ' !in s
  }

  /** A date and a time of day may be joined by a space or by a T; without a zone they are read as UTC+8, and what
      has one is left as it is. */
  lemma ZoneIsAdded(date: string, time: string)
    requires NoSpace(date) && NoSpace(time)
    ensures var plain := date + "T" + time;
            && WithZone(date + " " + time) == WithZone(plain)
            && WithZone(plain) == if |plain| < 20 then plain + "+08:00" else plain
  {
    var plain, spaced := date + "T" + time, date + " " + time;
    var t := seq(|spaced|, i requires 0 <= i < |spaced| => if spaced[i] == ' ' then 'T' else spaced[i]);
    var u := seq(|plain|, i requires 0 <= i < |plain| => if plain[i] == ' ' then 'T' else plain[i]);
    assert t == plain && u == plain;
  }

  /** Two texts that are not both digits are read exactly when both parse to times from 1970 on, and as these times;
      two texts of digits exactly when they have one of the four lengths, the same. */
  lemma WhichTimesAreRead(from: string, to: string, parse: string -> Option<Time>, t1: Time, t2: Time)
    ensures !(AllDigits(from) && AllDigits(to)) ==>
              (ReadTimes(from, to, parse) == Some((t1, t2))
               <==> parse(WithZone(from)) == Some(t1) && parse(WithZone(to)) == Some(t2) && EPOCH <= t1 && EPOCH <= t2)
    ensures AllDigits(from) && AllDigits(to) ==>
              (ReadTimes(from, to, parse).Some?
               <==> |from| == |to| && (|from| == 10 || |from| == 13 || |from| == 16 || |from| == 19))
  {
  }

  // ---------- the link in an answer ----------

  lemma TextIsRead(n: nat)
    requires 0 < n < TWO63
    ensures AllDigits(Text(n)) && Text(n) != "" && ToInt64(Text(n)) == n
    ensures Pow10(|Text(n)| - 1) <= n < Pow10(|Text(n)|)
  {
    NumberOfText(n);
    LeadingDigit(Text(n));
    FixedOfNumber(Text(n));
  }

  lemma Powers()
    ensures Pow10(9) == 1_000_000_000 && Pow10(13) == 10_000_000_000_000 && Pow10(18) == 1_000_000_000_000_000_000
  {
    assert Pow10(3) == 1000;
    assert Pow10(6) == 1000 * Pow10(3);
    assert Pow10(9) == 1000 * Pow10(6);
    assert Pow10(12) == 1000 * Pow10(9);
    assert Pow10(15) == 1000 * Pow10(12);
    assert Pow10(18) == 1000 * Pow10(15);
  }

  lemma NoWrap(n: nat, unit: nat)
    requires n * unit < TWO64
    ensures UnixTime(n, unit) == EPOCH + n * unit || UnixTime(n, unit) < EPOCH
    ensures n * unit < TWO63 ==> UnixTime(n, unit) == EPOCH + n * unit
  {
  }

  // A text of n microseconds is read as that time exactly when it has sixteen digits.
  lemma MicrosAreRead(n: nat)
    requires n * 1000 < TWO63
    ensures AllDigits(Text(n))
    ensures DigitTime(Text(n)) == Some(EPOCH + n * 1000) <==> |Text(n)| == 16
  {
    if n == 0 {
      assert AllDigits(Text(0)) && |Text(0)| == 1;
    } else {
      var s := Text(n);
      TextIsRead(n);
      Powers();
      if |s| == 13 {
        NoWrap(n, 1_000_000);
      } else if |s| == 16 {
        NoWrap(n, 1_000);
      }
    }
  }

  /** The link in an answer leads back to the query it is answered by, and asks for exactly its file's range if and
      only if both times have sixteen digits, which is so between 2001-09-09 and 2262. */
  lemma LinkAsksForItsFile(span: Span, sensorid: string, filetype: string, parse: string -> Option<Time>)
    requires EPOCH <= span.0 && EPOCH <= span.1 && span.0 % 1000 == 0 && span.1 % 1000 == 0
    requires FitsUnixNano(span.0) && FitsUnixNano(span.1)
    ensures var query := ItemOf(span, sensorid, filetype).query;
            var from, to := SignedText(query.timeFrom), SignedText(query.timeTo);
            && query.fullPath == PATH + "?" + Parameters(sensorid, filetype, from, to)
            && (ReadTimes(from, to, parse) == Some((span.0, span.1)) <==> |from| == 16 && |to| == 16)
  {
    ItemIsExact(span, sensorid, filetype);
    MicrosAreRead(UnixMicro(span.0));
    MicrosAreRead(UnixMicro(span.1));
  }
}
