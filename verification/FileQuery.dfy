/** Finding the archive files of a sensor that overlap a queried time range. */
module FileQuery {
  import opened Wrappers
  import opened Decimal
  import opened Sequences
  import opened StringOrder
  import opened DayRange
  import opened Timestamp
  import opened FileNames
  import opened SensorItems
  import opened QueryTimes
  import opened FileIndex

  predicate Within(x: Instant, a: Instant, b: Instant) {
    a <= x <= b
  }

  lemma SpanOrUnreadable(full: string, pass: nat, reader: Reader)
    ensures SpanOf(full, pass, reader).None? <==> !Readable(full, reader)
  {
  }

  // A file is passed over when it ends before the query or starts after it.
  predicate Meets(span: Span, t1: Instant, t2: Instant) {
    !(span.1 < t1) && !(t2 < span.0)
  }

  /** For a file that does not end before it starts, this is to share an instant with the query. */
  lemma MeetsIsOverlap(span: Span, t1: Instant, t2: Instant)
    requires span.0 <= span.1 && t1 <= t2
    ensures Meets(span, t1, t2) <==> exists x: Instant :: Within(x, span.0, span.1) && Within(x, t1, t2)
  {
    if Meets(span, t1, t2) {
      var x: Instant := if span.0 < t1 then t1 else span.0;
      assert Within(x, span.0, span.1) && Within(x, t1, t2);
    }
  }

  // A query, and the clock while it is answered.
  datatype Query = Query(t1: Instant, t2: Instant, reader: Reader)

  predicate Selected(files: map<string, string>, k: string, q: Query) {
    k in files && var span := SpanOf(files[k], 1, q.reader); span.Some? && Meets(span.value, q.t1, q.t2)
  }

  /** The keys of the map, in increasing order. */
  method SortedKeys(files: map<string, string>) returns (list: seq<string>)
    ensures Increasing(list)
    ensures forall k :: k in list <==> k in files
  {
    list := [];
    var keys := files.Keys;
    while keys != {}
      invariant keys <= files.Keys && Distinct(list)
      invariant forall k :: k in list <==> k in files && k !in keys
      decreases keys
    {
      var k :| k in keys;
      list := list + [k];
      keys := keys - {k};
    }
    SortOfDistinct(list);
    list := SortStrings(list);
  }

  lemma IncreasingAppend(list: seq<string>, n: nat, starts: seq<string>)
    requires Increasing(list) && n < |list| && Increasing(starts) && forall k :: k in starts ==> k in list[..n]
    ensures Increasing(starts + [list[n]])
  {
    forall i | 0 <= i < |starts|
      ensures Less(starts[i], list[n])
    {
      assert starts[i] in list[..n];
    }
  }

  // read gives what a file reads as; the files under these keys are read and overlap [t1, t2].
  predicate Chosen(files: map<string, string>, k: string, read: string -> Option<Span>, t1: Instant, t2: Instant) {
    k in files && var span := read(files[k]); span.Some? && Meets(span.value, t1, t2)
  }

  // starts holds those of the first n keys that are chosen, in their order.
  ghost predicate ChosenSoFar(starts: seq<string>, list: seq<string>, n: nat, files: map<string, string>,
                              read: string -> Option<Span>, t1: Instant, t2: Instant)
    requires n <= |list|
  {
    Increasing(starts) && forall k :: k in starts <==> k in list[..n] && Chosen(files, k, read, t1, t2)
  }

  lemma ChooseNext(starts: seq<string>, list: seq<string>, n: nat, files: map<string, string>,
                   read: string -> Option<Span>, t1: Instant, t2: Instant)
    requires n < |list| && Increasing(list) && ChosenSoFar(starts, list, n, files, read, t1, t2)
    ensures var more := if Chosen(files, list[n], read, t1, t2) then starts + [list[n]] else starts;
            ChosenSoFar(more, list, n + 1, files, read, t1, t2)
  {
    assert list[..n + 1] == list[..n] + [list[n]];
    IncreasingAppend(list, n, starts);
  }

  lemma ChosenAll(starts: seq<string>, list: seq<string>, files: map<string, string>, read: string -> Option<Span>,
                  t1: Instant, t2: Instant)
    requires ChosenSoFar(starts, list, |list|, files, read, t1, t2) && forall k :: k in list <==> k in files
    ensures Increasing(SortStrings(starts))
    ensures forall k :: k in SortStrings(starts) <==> Chosen(files, k, read, t1, t2)
  {
    assert list[..|list|] == list;
    IncreasingIsDistinct(starts);
    SortOfDistinct(starts);
  }

  /** Exactly the keys whose files overlap the query, in increasing order; None if some name does not parse. */
  method Select(files: map<string, string>, read: string -> Option<Span>, t1: Instant, t2: Instant)
      returns (r: Option<seq<string>>)
    ensures r.None? <==> exists k :: k in files && read(files[k]).None?
    ensures r.Some? ==> Increasing(r.value) && forall k :: k in r.value <==> Chosen(files, k, read, t1, t2)
  {
    var timestamplist := SortedKeys(files);
    var starts: seq<string> := [];
    for n := 0 to |timestamplist|
      invariant ChosenSoFar(starts, timestamplist, n, files, read, t1, t2)
      invariant forall i :: 0 <= i < n ==> timestamplist[i] in files && read(files[timestamplist[i]]).Some?
    {
      var creattime := timestamplist[n];
      assert creattime in files;
      ChooseNext(starts, timestamplist, n, files, read, t1, t2);
      var span := read(files[creattime]);
      if span.None? {
        return None;
      }
      if span.value.1 < t1 {
        continue;
      }
      if t2 < span.value.0 {
        continue;
      }
      starts := starts + [creattime];
    }
    ChosenAll(starts, timestamplist, files, read, t1, t2);
    return Some(SortStrings(starts));
  }

  datatype Response = BadRequest | NotFound | Found(items: seq<SensorItem>)

  // The span answered for a file, read from the file's own name.
  function FileSpan(full: string, reader: Reader): Option<Span> {
    Reading(reader.parse(AfterLastSlash(full)), reader.now(2, full))
  }

  lemma FileSpanOrUnreadable(full: string, reader: Reader)
    ensures FileSpan(full, reader).None? <==> !Readable(AfterLastSlash(full), reader)
  {
  }

  function ItemsOf(spans: seq<Span>, sensorid: string, filetype: string): seq<SensorItem> {
    seq(|spans|, i requires 0 <= i < |spans| => ItemOf(spans[i], sensorid, filetype))
  }

  lemma ItemsAppend(spans: seq<Span>, span: Span, sensorid: string, filetype: string)
    ensures ItemsOf(spans + [span], sensorid, filetype)
            == ItemsOf(spans, sensorid, filetype) + [ItemOf(span, sensorid, filetype)]
  {
  }

  /** The answered items, one for each start; span gives what a start's file reads as. */
  method List(starts: seq<string>, span: string -> Option<Span>, sensorid: string, filetype: string)
      returns (r: Response, ghost spans: seq<Span>)
    ensures r.NotFound? <==> exists i :: 0 <= i < |starts| && span(starts[i]).None?
    ensures !r.BadRequest?
    ensures r.Found? ==> r.items == ItemsOf(spans, sensorid, filetype) && |spans| == |starts|
    ensures r.Found? ==> forall i :: 0 <= i < |starts| ==> span(starts[i]) == Some(spans[i])
  {
    var searchlists: seq<SensorItem> := [];
    spans := [];
    for n := 0 to |starts|
      invariant |spans| == n && searchlists == ItemsOf(spans, sensorid, filetype)
      invariant forall i :: 0 <= i < n ==> span(starts[i]) == Some(spans[i])
    {
      var v := span(starts[n]);
      if v.None? {
        return NotFound, [];
      }
      ItemsAppend(spans, v.value, sensorid, filetype);
      searchlists := searchlists + [ItemOf(v.value, sensorid, filetype)];
      spans := spans + [v.value];
    }
    return Found(searchlists), spans;
  }

  // File i of the scan is the last with its start and overlaps the query.
  predicate Hit(scan: seq<string>, i: nat, q: Query) {
    && i < |scan| && Latest(scan, i, q.reader)
    && var span := SpanOf(scan[i], 1, q.reader); span.Some? && Meets(span.value, q.t1, q.t2)
  }

  // x is what the file answers.
  predicate HitSpan(scan: seq<string>, i: nat, x: Span, q: Query) {
    Hit(scan, i, q) && FileSpan(scan[i], q.reader) == Some(x)
  }

  // The answer to a query holds the items of the files that overlap it, one file for each start.
  ghost predicate Answers(spans: seq<Span>, scan: seq<string>, q: Query) {
    forall x: Span :: x in spans <==> exists i: nat :: HitSpan(scan, i, x, q)
  }

  predicate InTimeOrder(spans: seq<Span>) {
    forall i, j :: 0 <= i < j < |spans| ==> spans[i].0 < spans[j].0
  }

  // Every file of the scan carries a range from 1970 on, so that the clock is never asked.
  predicate Ranged(scan: seq<string>, reader: Reader) {
    forall i :: 0 <= i < |scan| ==> reader.parse(scan[i]).Range?
  }

  // items are read off the selected keys.
  ghost predicate Listed(spans: seq<Span>, starts: seq<string>, files: map<string, string>, q: Query) {
    |spans| == |starts| && Increasing(starts)
    && (forall k :: k in starts <==> Selected(files, k, q))
    && forall i :: 0 <= i < |starts| ==> starts[i] in files && FileSpan(files[starts[i]], q.reader) == Some(spans[i])
  }

  lemma FileAtKey(scan: seq<string>, k: string, reader: Reader) returns (i: nat)
    requires k in Index(scan, reader)
    ensures Filed(scan, i, k, reader) && Index(scan, reader)[k] == scan[i]
  {
    IndexHoldsLatest(scan, k, reader);
    i :| Filed(scan, i, k, reader);
  }

  lemma SelectedIsHit(scan: seq<string>, k: string, q: Query)
    ensures Selected(Index(scan, q.reader), k, q) <==> exists i: nat :: Filed(scan, i, k, q.reader) && Hit(scan, i, q)
  {
    if Selected(Index(scan, q.reader), k, q) {
      var i := FileAtKey(scan, k, q.reader);
      assert Filed(scan, i, k, q.reader) && Hit(scan, i, q);
    }
    if i: nat :| Filed(scan, i, k, q.reader) && Hit(scan, i, q) {
      IndexHoldsLatest(scan, k, q.reader);
    }
  }

  lemma EveryKeyReadable(scan: seq<string>, reader: Reader)
    requires AllScanned(scan, reader)
    ensures forall k :: k in Index(scan, reader) ==>
              Readable(Index(scan, reader)[k], reader) && FileSpan(Index(scan, reader)[k], reader).Some?
  {
    forall k | k in Index(scan, reader)
      ensures Readable(Index(scan, reader)[k], reader) && FileSpan(Index(scan, reader)[k], reader).Some?
    {
      var i := FileAtKey(scan, k, reader);
      FileSpanOrUnreadable(scan[i], reader);
    }
  }

  lemma SpanIsHit(spans: seq<Span>, starts: seq<string>, scan: seq<string>, x: Span, q: Query)
    requires Listed(spans, starts, Index(scan, q.reader), q) && x in spans
    ensures exists i: nat :: HitSpan(scan, i, x, q)
  {
    var j :| 0 <= j < |spans| && spans[j] == x;
    var k := starts[j];
    assert k in starts;
    SelectedIsHit(scan, k, q);
    var i: nat :| Filed(scan, i, k, q.reader) && Hit(scan, i, q);
    IndexHoldsLatest(scan, k, q.reader);
    assert HitSpan(scan, i, x, q);
  }

  lemma HitHasSpan(spans: seq<Span>, starts: seq<string>, scan: seq<string>, i: nat, x: Span, q: Query)
    requires Listed(spans, starts, Index(scan, q.reader), q) && HitSpan(scan, i, x, q)
    ensures x in spans
  {
    var k := Key(scan[i], q.reader);
    assert Filed(scan, i, k, q.reader);
    SelectedIsHit(scan, k, q);
    IndexHoldsLatest(scan, k, q.reader);
    var j :| 0 <= j < |starts| && starts[j] == k;
    assert spans[j] == x;
  }

  lemma ListedAnswers(spans: seq<Span>, starts: seq<string>, scan: seq<string>, q: Query)
    requires Listed(spans, starts, Index(scan, q.reader), q)
    ensures Answers(spans, scan, q)
  {
    forall x: Span
      ensures x in spans <==> exists i: nat :: HitSpan(scan, i, x, q)
    {
      if x in spans {
        SpanIsHit(spans, starts, scan, x, q);
      }
      if i: nat :| HitSpan(scan, i, x, q) {
        HitHasSpan(spans, starts, scan, i, x, q);
      }
    }
  }

  // The key of a file that carries a range is the stamp of its item's start.
  lemma KeyIsStart(full: string, reader: Reader)
    requires Sound(reader) && IsFilePath(full) && reader.parse(full).Range?
    ensures var r := reader.parse(full);
      FileSpan(full, reader) == Some((r.start, r.end)) && Key(full, reader) == StampOf(r.start) && r.start % 1000 == 0
  {
  }

  lemma ListedInTimeOrder(spans: seq<Span>, starts: seq<string>, scan: seq<string>, q: Query)
    requires Sound(q.reader) && AllScanned(scan, q.reader) && Listed(spans, starts, Index(scan, q.reader), q)
    ensures Ranged(scan, q.reader) ==> InTimeOrder(spans)
  {
    forall i, j | 0 <= i < j < |spans| && Ranged(scan, q.reader)
      ensures spans[i].0 < spans[j].0
    {
      var a := FileAtKey(scan, starts[i], q.reader);
      var b := FileAtKey(scan, starts[j], q.reader);
      KeyIsStart(scan[a], q.reader);
      KeyIsStart(scan[b], q.reader);
      StampOrder(spans[i].0, spans[j].0);
    }
  }

  ghost predicate AnswersInOrder(spans: seq<Span>, scan: seq<string>, q: Query) {
    Answers(spans, scan, q) && (Ranged(scan, q.reader) ==> InTimeOrder(spans))
  }

  lemma ListedAnswersInOrder(spans: seq<Span>, starts: seq<string>, scan: seq<string>, files: map<string, string>,
                             q: Query)
    requires Sound(q.reader)
    requires files == Index(scan, q.reader) && AllScanned(scan, q.reader) && Listed(spans, starts, files, q)
    ensures AnswersInOrder(spans, scan, q)
  {
    ListedAnswers(spans, starts, scan, q);
    ListedInTimeOrder(spans, starts, scan, q);
  }

  // The keys a query selects, when every file can be read.
  method SelectFor(files: map<string, string>, q: Query) returns (r: Option<seq<string>>)
    ensures r.None? <==> exists k :: k in files && !Readable(files[k], q.reader)
    ensures r.Some? ==> Increasing(r.value) && forall k :: k in r.value <==> Selected(files, k, q)
  {
    r := Select(files, full => SpanOf(full, 1, q.reader), q.t1, q.t2);
    forall k | k in files
      ensures Readable(files[k], q.reader) <==> SpanOf(files[k], 1, q.reader).Some?
    {
      SpanOrUnreadable(files[k], 1, q.reader);
    }
  }

  // From the index to the answer.
  method AnswerFrom(files: map<string, string>, sensorid: string, filetype: string, q: Query, ghost scan: seq<string>)
      returns (r: Response, ghost spans: seq<Span>)
    requires files == Index(scan, q.reader) && AllScanned(scan, q.reader) && Sound(q.reader)
    ensures !r.BadRequest? && (r.Found? <==> spans != [])
    ensures r.Found? ==> r.items == ItemsOf(spans, sensorid, filetype)
    ensures AnswersInOrder(spans, scan, q)
  {
    EveryKeyReadable(scan, q.reader);
    var starts := SelectFor(files, q);
    if starts.None? || |starts.value| < 1 {
      ListedAnswersInOrder([], [], scan, files, q);
      return NotFound, [];
    }
    assert forall k :: k in starts.value ==> k in files;
    r, spans := List(starts.value, k => if k in files then FileSpan(files[k], q.reader) else None, sensorid, filetype);
    ListedAnswersInOrder(spans, starts.value, scan, files, q);
  }

  lemma {:induction false} AfterLastSlashIsPlain(path: string)
    ensures Plain(AfterLastSlash(path), '/')
    ensures IsFilePath(path) ==> AfterLastSlash(path) != ""
  {
    if IsFilePath(path) {
      AfterLastSlashIsPlain(path[..|path| - 1]);
    }
  }

  lemma SameFile(full: string)
    requires IsFilePath(full)
    ensures GetTimeRangeFromFileName(AfterLastSlash(full)) == GetTimeRangeFromFileName(full)
  {
    AfterLastSlashIsPlain(full);
    BaseOfName(AfterLastSlash(full));
  }

  // Names are read by the file name parser.
  function NameReader(now: (nat, string) -> Span): Reader {
    Reader(GetTimeRangeFromFileName, now)
  }

  lemma NameReaderIsSound(now: (nat, string) -> Span)
    ensures Sound(NameReader(now))
  {
    var reader := NameReader(now);
    forall full | IsFilePath(full)
      ensures reader.parse(AfterLastSlash(full)) == reader.parse(full)
    {
      SameFile(full);
    }
    forall full | reader.parse(full).Range?
      ensures reader.parse(full).start % 1000 == 0
    {
      NamesWithARange(full);
    }
  }

  // What a query is refused for: no sensor, an unknown type, times that cannot be read, or a range that is not
  // positive.
  predicate Refused(sensorid: string, filetype: string, times: Option<(Time, Time)>) {
    sensorid == "" || filetype != "Arc" || times.None? || times.value.1 <= times.value.0
  }

  // Whether both times have a day in the years 0 to 9999.
  predicate HasDays(times: (Time, Time)) {
    InYears(times.0) && InYears(times.1)
  }

  /** The history query. It is refused exactly as said above; with a time beyond the year 9999 nothing is found.
      Otherwise the items are exactly those of the overlapping files, and there is an answer exactly when something
      overlaps. With names from 1970 on, the items stand strictly in time order. */
  method GetSensorLists(sensorid: string, filetype: string, from: string, to: string, parse: string -> Option<Time>,
                        dataPath: string, folders: map<string, seq<FileName>>, now: (nat, string) -> Span)
      returns (r: Response, ghost spans: seq<Span>)
    ensures r.BadRequest? <==> Refused(sensorid, filetype, ReadTimes(from, to, parse))
    ensures r.Found? <==> spans != []
    ensures r.Found? ==> r.items == ItemsOf(spans, sensorid, filetype)
    ensures !r.BadRequest? && !HasDays(ReadTimes(from, to, parse).value) ==> r.NotFound?
    ensures !r.BadRequest? && HasDays(ReadTimes(from, to, parse).value) ==>
              var (t1, t2) := ReadTimes(from, to, parse).value;
              var paths := FoldersOf(dataPath + "/" + sensorid, DayTexts(Day(t1), Day(t2)), filetype);
              AnswersInOrder(spans, Scan(paths, folders, NameReader(now)), Query(t1, t2, NameReader(now)))
  {
    if sensorid == "" || filetype != "Arc" {
      return BadRequest, [];
    }
    var times := ReadTimes(from, to, parse);
    if times.None? {
      return BadRequest, [];
    }
    var (t1, t2) := times.value;
    if t2 < t1 || t2 == t1 {
      return BadRequest, [];
    }
    var days, _, ok := GetDaysDiffer(Reparsed(t1), Reparsed(t2));
    if !ok {
      return NotFound, [];
    }
    ReparsedDay(t1);
    ReparsedDay(t2);
    SameDayOrLater(t1, t2);
    var reader := NameReader(now);
    NameReaderIsSound(now);
    var files := Collect(dataPath + "/" + sensorid, days, filetype, folders, reader);
    ghost var paths := FoldersOf(dataPath + "/" + sensorid, days, filetype);
    ScannedFiles(paths, folders, reader);
    r, spans := AnswerFrom(files, sensorid, filetype, Query(t1, t2, reader), Scan(paths, folders, reader));
  }

  /** The items of files from 1970 on, and from before 2262, are exact and strictly in time order themselves. */
  lemma ItemsInTimeOrder(spans: seq<Span>, sensorid: string, filetype: string)
    requires InTimeOrder(spans)
    requires forall i :: 0 <= i < |spans| ==> EPOCH <= spans[i].0 && spans[i].0 % 1000 == 0 && FitsUnixNano(spans[i].0)
    ensures var items := ItemsOf(spans, sensorid, filetype);
            forall i, j :: 0 <= i < j < |items| ==> items[i].timeFrom < items[j].timeFrom
  {
    var items := ItemsOf(spans, sensorid, filetype);
    forall i, j | 0 <= i < j < |items|
      ensures items[i].timeFrom < items[j].timeFrom
    {
      UnixMicroIsExact(spans[i].0);
      UnixMicroIsExact(spans[j].0);
    }
  }
}
