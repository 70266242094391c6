/** What a history query answers for one file. */
module SensorItems {
  import opened Arithmetic
  import opened Decimal
  import opened DayRange
  import opened FileNames

  // The start and the end of a file.
  type Span = (Instant, Instant)

  datatype SensorQuery = SensorQuery(
    url: string,
    scheme: string,
    domain: string,
    port: int,
    fullPath: string,
    path: string,
    sensorID: string,
    dataType: string,
    timeFrom: int,
    timeTo: int)

  datatype SensorItem = SensorItem(
    sensorID: string,
    dataType: string,
    timeFrom: int,
    timeTo: int,
    timeDuration: int,
    query: SensorQuery)

  // UnixNano: an int64, which wraps in the year 2262.
  function UnixNano(t: Instant): int {
    Signed64((t - EPOCH) % TWO64)
  }

  // t.UnixNano() / 1e3
  function UnixMicro(t: Instant): int {
    Quotient(UnixNano(t), 1000)
  }

  // t.Sub(u): an int64 number of nanoseconds that saturates.
  function Sub(t: Instant, u: Instant): int {
    if t - u >= TWO63 then TWO63 - 1 else if t - u < -TWO63 then -TWO63 else t - u
  }

  // A number in decimal, without leading zeros.
  function Text(n: nat): string {
    if n < 10 then [Digit(n)] else Text(n / 10) + [Digit(n % 10)]
  }

  function SignedText(n: int): string {
    if n < 0 then "-" + Text(-n) else Text(n)
  }

  // The link to a file's data: a path, and the file's own times in microseconds.
  const PATH := "api/data/v1/history/arc"

  function Parameters(sensorid: string, filetype: string, from: string, to: string): string {
    ("sensorid=" + sensorid) + "&" + ("type=" + filetype) + "&" + ("from=" + from) + "&" + ("to=" + to)
  }

  function FullPath(sensorid: string, filetype: string, timeFrom: int, timeTo: int): string {
    PATH + "?" + Parameters(sensorid, filetype, SignedText(timeFrom), SignedText(timeTo))
  }

  function ItemOf(span: Span, sensorid: string, filetype: string): SensorItem {
    var timeFrom, timeTo := UnixMicro(span.0), UnixMicro(span.1);
    var fullPath := FullPath(sensorid, filetype, timeFrom, timeTo);
    SensorItem(sensorid, filetype, timeFrom, timeTo, Quotient(Sub(span.1, span.0), 1000),
         SensorQuery("http://arc-storage/" + fullPath, "http", "arc-storage", 80, fullPath, PATH, sensorid, filetype,
                     timeFrom, timeTo))
  }

  // Before 2262-04-11, where the nanoseconds since 1970 still fit an int64.
  predicate FitsUnixNano(t: Instant) {
    t - EPOCH < TWO63
  }

  /** A time from 1970 on, in whole microseconds, is answered exactly if and only if its nanoseconds fit an int64. */
  lemma UnixMicroIsExact(t: Instant)
    requires t >= EPOCH && t % 1000 == 0
    ensures UnixMicro(t) * 1000 == t - EPOCH <==> FitsUnixNano(t)
  {
    EpochIsWhole(t);
    if !FitsUnixNano(t) {
      var w := UnixNano(t);
      assert -TWO63 <= w < TWO63;
      QuotientShrinks(w);
    }
  }

  lemma EpochIsWhole(t: Instant)
    requires t % 1000 == 0
    ensures (t - EPOCH) % 1000 == 0
  {
  }

  lemma QuotientShrinks(a: int)
    ensures a >= 0 ==> 0 <= Quotient(a, 1000) * 1000 <= a
    ensures a < 0 ==> a <= Quotient(a, 1000) * 1000 <= 0
  {
  }

  /** An item's times are its file's, its duration is the difference of the two, and so are the times in its link. */
  lemma ItemIsExact(span: Span, sensorid: string, filetype: string)
    requires EPOCH <= span.0 && EPOCH <= span.1 && span.0 % 1000 == 0 && span.1 % 1000 == 0
    requires FitsUnixNano(span.0) && FitsUnixNano(span.1)
    ensures var item := ItemOf(span, sensorid, filetype);
            && item.timeFrom * 1000 == span.0 - EPOCH && item.timeTo * 1000 == span.1 - EPOCH
            && item.timeDuration == item.timeTo - item.timeFrom
            && item.query.timeFrom == item.timeFrom >= 0 && item.query.timeTo == item.timeTo >= 0
  {
    UnixMicroIsExact(span.0);
    UnixMicroIsExact(span.1);
    QuotientOfMultiple(UnixMicro(span.1) - UnixMicro(span.0));
  }

  /** A difference of times is exact when it fits an int64, and otherwise the nearest number that does. */
  lemma SubSaturates(t: Instant, u: Instant)
    ensures var d := Sub(t, u);
            && -TWO63 <= d < TWO63
            && (-TWO63 <= t - u < TWO63 ==> d == t - u)
            && (t - u >= TWO63 ==> d == TWO63 - 1) && (t - u < -TWO63 ==> d == -TWO63)
  {
  }

  lemma QuotientOfMultiple(n: int)
    ensures Quotient(n * 1000, 1000) == n
  {
  }

  /** The decimal text in a link reads back as the number, and has no leading zero. */
  lemma {:induction false} NumberOfText(n: nat)
    ensures AllDigits(Text(n)) && Text(n) != "" && Number(Text(n)) == n && (n > 0 ==> Text(n)[0] != '0')
  {
    if n >= 10 {
      NumberOfText(n / 10);
      assert Text(n)[..|Text(n)| - 1] == Text(n / 10);
    } else {
      assert [Digit(n)][..0] == "";
    }
  }

  lemma SignedTextIsPlain(n: int)
    ensures Plain(SignedText(n), '&') && Plain(SignedText(n), '?')
  {
    NumberOfText(if n < 0 then -n else n);
  }

  /** An item names the sensor and the type it was asked for, and so does its link, whose address is the host, the
      path and the parameters. */
  lemma ItemNamesSensor(span: Span, sensorid: string, filetype: string)
    ensures var item := ItemOf(span, sensorid, filetype);
            && item.sensorID == item.query.sensorID == sensorid && item.dataType == item.query.dataType == filetype
            && item.query.scheme == "http" && item.query.domain == "arc-storage" && item.query.port == 80
            && item.query.path == "api/data/v1/history/arc"
            && item.query.url == "http://arc-storage/" + item.query.fullPath
            && item.query.fullPath == "api/data/v1/history/arc" + "?"
               + Parameters(sensorid, filetype, SignedText(item.timeFrom), SignedText(item.timeTo))
  {
  }

  /** The parameters of a link read back as the sensor, the type and the two times. */
  lemma LinkReadsBack(sensorid: string, filetype: string, timeFrom: int, timeTo: int)
    requires Plain(sensorid, '&') && Plain(filetype, '&')
    ensures Split(Parameters(sensorid, filetype, SignedText(timeFrom), SignedText(timeTo)), '&')
            == ["sensorid=" + sensorid, "type=" + filetype, "from=" + SignedText(timeFrom), "to=" + SignedText(timeTo)]
  {
    SignedTextIsPlain(timeFrom);
    SignedTextIsPlain(timeTo);
    SplitFour(["sensorid=" + sensorid, "type=" + filetype, "from=" + SignedText(timeFrom), "to=" + SignedText(timeTo)]);
  }

  lemma SplitFour(parts: seq<string>)
    requires |parts| == 4 && forall i :: 0 <= i < 4 ==> Plain(parts[i], '&')
    ensures Split(parts[0] + "&" + parts[1] + "&" + parts[2] + "&" + parts[3], '&') == parts
  {
    SplitOfJoin(parts, '&');
    JoinFour(parts);
  }

  lemma JoinFour(parts: seq<string>)
    requires |parts| == 4
    ensures Join(parts, '&') == parts[0] + "&" + parts[1] + "&" + parts[2] + "&" + parts[3]
  {
    assert Join(parts[1..], '&') == parts[1] + "&" + Join(parts[1..][1..], '&');
    assert parts[1..][1..] == [parts[2], parts[3]];
    assert Join([parts[2], parts[3]], '&') == parts[2] + "&" + Join([parts[3]], '&') by {
      assert [parts[2], parts[3]][1..] == [parts[3]];
    }
  }
}
