/** Reading a time range from the name of an archive file. */
module FileNames {
  import opened Calendar
  import opened DayRange
  import opened Timestamp

  // 1970-01-01: an instant before it has a negative Unix().
  const EPOCH: Instant := 719_528 * NANOS_PER_DAY

  lemma EpochDay()
    ensures DayNumber(Date(1970, 1, 1)) * NANOS_PER_DAY == EPOCH
  {
  }

  // strings.Split.
  function Split(s: string, c: char): (parts: seq<string>)
    ensures parts != []
  {
    if s == "" then [""]
    else
      var rest := Split(s[1..], c);
      if s[0] == c then [""] + rest else [[s[0]] + rest[0]] + rest[1..]
  }

  function Join(parts: seq<string>, c: char): string
    requires parts != []
  {
    if |parts| == 1 then parts[0] else parts[0] + [c] + Join(parts[1..], c)
  }

  predicate Plain(part: string, c: char) {
    c !in part
  }

  lemma {:induction false} SplitAtFirst(part: string, rest: string, c: char)
    requires Plain(part, c)
    ensures Split(part + [c] + rest, c) == [part] + Split(rest, c)
  {
    if part == "" {
      assert "" + [c] + rest == [c] + rest;
      assert ([c] + rest)[1..] == rest;
    } else {
      SplitAtFirst(part[1..], rest, c);
      assert (part + [c] + rest)[1..] == part[1..] + [c] + rest;
      assert [part[0]] + part[1..] == part;
    }
  }

  lemma {:induction false} SplitPlain(part: string, c: char)
    requires Plain(part, c)
    ensures Split(part, c) == [part]
  {
    if part != "" {
      SplitPlain(part[1..], c);
      assert [part[0]] + part[1..] == part;
    }
  }

  lemma {:induction false} SplitOfJoin(parts: seq<string>, c: char)
    requires parts != [] && forall i :: 0 <= i < |parts| ==> Plain(parts[i], c)
    ensures Split(Join(parts, c), c) == parts
  {
    if |parts| == 1 {
      SplitPlain(parts[0], c);
    } else {
      SplitOfJoin(parts[1..], c);
      SplitAtFirst(parts[0], Join(parts[1..], c), c);
      assert [parts[0]] + parts[1..] == parts;
    }
  }

  lemma JoinLonger(x: char, parts: seq<string>, c: char)
    requires parts != []
    ensures Join([[x] + parts[0]] + parts[1..], c) == [x] + Join(parts, c)
  {
    var longer := [[x] + parts[0]] + parts[1..];
    assert longer[1..] == parts[1..];
    if |parts| > 1 {
      assert ([x] + parts[0]) + [c] + Join(parts[1..], c) == [x] + (parts[0] + [c] + Join(parts[1..], c));
    }
  }

  lemma {:induction false} JoinOfSplit(s: string, c: char)
    ensures Join(Split(s, c), c) == s
    ensures forall i :: 0 <= i < |Split(s, c)| ==> Plain(Split(s, c)[i], c)
  {
    if s != "" {
      var rest := Split(s[1..], c);
      JoinOfSplit(s[1..], c);
      assert [s[0]] + s[1..] == s;
      if s[0] == c {
        assert ([""] + rest)[1..] == rest;
        assert "" + [c] + Join(rest, c) == s;
      } else {
        JoinLonger(s[0], rest, c);
      }
    }
  }

  function WithoutTrailingSlashes(path: string): string {
    if path != "" && path[|path| - 1] == '/' then WithoutTrailingSlashes(path[..|path| - 1]) else path
  }

  function AfterLastSlash(path: string): string {
    if path == "" || path[|path| - 1] == '/' then "" else AfterLastSlash(path[..|path| - 1]) + [path[|path| - 1]]
  }

  // path.Base.
  function Base(path: string): string {
    if path == "" then "."
    else
      var base := AfterLastSlash(WithoutTrailingSlashes(path));
      if base == "" then "/" else base
  }

  lemma {:induction false} AfterDirectory(dir: string, name: string)
    requires Plain(name, '/')
    ensures AfterLastSlash(dir + "/" + name) == name
  {
    var path := dir + "/" + name;
    if name != "" {
      AfterDirectory(dir, name[..|name| - 1]);
      assert path[..|path| - 1] == dir + "/" + name[..|name| - 1];
    }
  }

  /** The base of a file in a directory is the file's own name. */
  lemma BaseOfFile(dir: string, name: string)
    requires name != "" && Plain(name, '/')
    ensures Base(dir + "/" + name) == name
  {
    AfterDirectory(dir, name);
  }

  lemma {:induction false} AfterNoSlash(name: string)
    requires Plain(name, '/')
    ensures AfterLastSlash(name) == name
  {
    if name != "" {
      AfterNoSlash(name[..|name| - 1]);
    }
  }

  lemma BaseOfName(name: string)
    requires name != "" && Plain(name, '/')
    ensures Base(name) == name
  {
    AfterNoSlash(name);
  }

  /** The remaining cases of Base: trailing slashes do not count, an empty path is a dot, only slashes are a slash. */
  lemma BaseCases(dir: string, name: string)
    requires name != "" && Plain(name, '/')
    ensures Base("") == "." && Base("/") == "/" && Base("//") == "/"
    ensures Base(dir + "/" + name + "/") == name
  {
    var path := dir + "/" + name;
    assert (path + "/")[..|path|] == path;
    assert path[|path| - 1] == name[|name| - 1] && name[|name| - 1] in name;
    assert WithoutTrailingSlashes(path + "/") == WithoutTrailingSlashes(path) == path;
    assert dir + "/" + name + "/" == path + "/";
    AfterDirectory(dir, name);
    assert "//"[..1] == "/" && "/"[..0] == "";
  }

  // Now stands for two readings of the clock returned without an error.
  datatype NameTime = Range(start: Instant, end: Instant, sensorid: string) | Now | Failed

  function ParseRange(startstr: string, endstr: string, sensorid: string): NameTime
    requires |startstr| == 20 && |endstr| == 20
  {
    var startdate := ParseField(startstr);
    if startdate.None? then Failed
    else if startdate.value < EPOCH then Now
    else
      var enddate := ParseField(endstr);
      if enddate.None? then Failed
      else if enddate.value < EPOCH then Now
      else Range(startdate.value, enddate.value, sensorid)
  }

  // The three shapes of a name: 6, 9 or 10 parts, with the two timestamps at 0 and 1 or at 2 and 3.
  function RangeOfParts(parts: seq<string>): NameTime {
    if |parts| == 6 && |parts[0]| == 20 && |parts[1]| == 20 then ParseRange(parts[0], parts[1], "")
    else if |parts| == 9 && |parts[2]| == 20 && |parts[3]| == 20 then ParseRange(parts[2], parts[3], "")
    else if |parts| == 10 && |parts[2]| == 20 && |parts[3]| == 20 then ParseRange(parts[2], parts[3], parts[0])
    else Failed
  }

  function GetTimeRangeFromFileName(filename: string): NameTime {
    RangeOfParts(Split(Base(filename), '_'))
  }

  // The parts of a name in one of the three shapes: two timestamps among 4, 7 or 8 other parts.
  function NameParts(others: seq<string>, s: Instant, e: Instant): seq<string>
    requires |others| == 4 || |others| == 7 || |others| == 8
  {
    var at := if |others| == 4 then 0 else 2;
    others[..at] + [StampOf(s), StampOf(e)] + others[at..]
  }

  function NameOf(others: seq<string>, s: Instant, e: Instant): string
    requires |others| == 4 || |others| == 7 || |others| == 8
  {
    Join(NameParts(others, s, e), '_')
  }

  // Only the longest shape names the sensor.
  function SensorOf(others: seq<string>): string {
    if |others| == 8 then others[0] else ""
  }

  lemma TruncatedEpoch(t: Instant)
    ensures Truncated(t) < EPOCH <==> t < EPOCH
  {
  }

  // What the parser makes of two printed instants.
  function Expected(s: Instant, e: Instant, sensorid: string): NameTime {
    if s < EPOCH || e < EPOCH then Now else Range(Truncated(s), Truncated(e), sensorid)
  }

  lemma ParseOfStamps(s: Instant, e: Instant, sensorid: string)
    ensures ParseRange(StampOf(s), StampOf(e), sensorid) == Expected(s, e, sensorid)
  {
    ParseOfStamp(s);
    ParseOfStamp(e);
    TruncatedEpoch(s);
    TruncatedEpoch(e);
  }

  predicate PlainParts(parts: seq<string>) {
    forall i :: 0 <= i < |parts| ==> Plain(parts[i], '_') && Plain(parts[i], '/')
  }

  lemma {:induction false} PlainJoin(parts: seq<string>, c: char, d: char)
    requires parts != [] && c != d && forall i :: 0 <= i < |parts| ==> Plain(parts[i], d)
    ensures Plain(Join(parts, c), d)
  {
    if |parts| > 1 {
      PlainJoin(parts[1..], c, d);
    }
  }

  lemma JoinIsLong(parts: seq<string>, c: char)
    requires |parts| > 1
    ensures Join(parts, c) != ""
  {
  }

  lemma NameInDirectory(dir: string, parts: seq<string>)
    requires |parts| > 1 && PlainParts(parts)
    ensures GetTimeRangeFromFileName(dir + "/" + Join(parts, '_')) == RangeOfParts(parts)
    ensures GetTimeRangeFromFileName(Join(parts, '_')) == RangeOfParts(parts)
  {
    SplitOfJoin(parts, '_');
    PlainJoin(parts, '_', '/');
    JoinIsLong(parts, '_');
    BaseOfFile(dir, Join(parts, '_'));
    BaseOfName(Join(parts, '_'));
  }

  lemma PlainNameParts(others: seq<string>, s: Instant, e: Instant)
    requires |others| == 4 || |others| == 7 || |others| == 8
    requires PlainParts(others)
    ensures PlainParts(NameParts(others, s, e))
  {
    var stamps := [StampOf(s), StampOf(e)];
    assert PlainParts(stamps);
    var at := if |others| == 4 then 0 else 2;
    assert PlainParts(others[..at] + stamps);
  }

  /** In all three shapes, in any directory, the range printed into a name is the range read back from it,
      each end truncated to microseconds. With an end before 1970 the name is not refused either: it reads as
      two clock readings, without an error. */
  lemma NameRoundTrip(dir: string, others: seq<string>, s: Instant, e: Instant)
    requires |others| == 4 || |others| == 7 || |others| == 8
    requires PlainParts(others)
    ensures var r := GetTimeRangeFromFileName(dir + "/" + NameOf(others, s, e));
      r == GetTimeRangeFromFileName(NameOf(others, s, e)) == Expected(s, e, SensorOf(others))
  {
    PlainNameParts(others, s, e);
    NameInDirectory(dir, NameParts(others, s, e));
    RangeOfNameParts(others, s, e);
  }

  lemma RangeOfNameParts(others: seq<string>, s: Instant, e: Instant)
    requires |others| == 4 || |others| == 7 || |others| == 8
    ensures RangeOfParts(NameParts(others, s, e)) == Expected(s, e, SensorOf(others))
  {
    ParseOfStamps(s, e, SensorOf(others));
  }

  // Whole microseconds from 1970 on.
  predicate IsStampRange(r: NameTime)
    requires r.Range?
  {
    r.start >= EPOCH && r.end >= EPOCH && r.start % 1000 == 0 && r.end % 1000 == 0
  }

  lemma ParsedRange(startstr: string, endstr: string, sensorid: string)
    requires |startstr| == 20 && |endstr| == 20
    ensures var r := ParseRange(startstr, endstr, sensorid);
      r.Range? ==> StampOf(r.start) == startstr && StampOf(r.end) == endstr && r.sensorid == sensorid && IsStampRange(r)
  {
    if ParseRange(startstr, endstr, sensorid).Range? {
      StampOfParse(startstr);
      StampOfParse(endstr);
    }
  }

  // The parts without the two timestamps.
  function OtherParts(parts: seq<string>): seq<string>
    requires |parts| == 6 || |parts| == 9 || |parts| == 10
  {
    if |parts| == 6 then parts[2..] else parts[..2] + parts[4..]
  }

  lemma PutBack(parts: seq<string>, s: Instant, e: Instant)
    requires |parts| == 6 || |parts| == 9 || |parts| == 10
    requires var at := if |parts| == 6 then 0 else 2; parts[at] == StampOf(s) && parts[at + 1] == StampOf(e)
    ensures parts == NameParts(OtherParts(parts), s, e)
  {
    var at := if |parts| == 6 then 0 else 2;
    assert parts == parts[..at] + [parts[at], parts[at + 1]] + parts[at + 2..];
    assert OtherParts(parts)[..at] == parts[..at] && OtherParts(parts)[at..] == parts[at + 2..];
  }

  lemma PartsWithARange(parts: seq<string>)
    requires |parts| == 6 || |parts| == 9 || |parts| == 10
    ensures var r := RangeOfParts(parts);
      r.Range? ==> parts == NameParts(OtherParts(parts), r.start, r.end) && r.sensorid == SensorOf(OtherParts(parts))
                   && IsStampRange(r)
  {
    var at := if |parts| == 6 then 0 else 2;
    if |parts[at]| == 20 && |parts[at + 1]| == 20 {
      ParsedRange(parts[at], parts[at + 1], SensorOf(OtherParts(parts)));
      var r := RangeOfParts(parts);
      if r.Range? {
        PutBack(parts, r.start, r.end);
      }
    }
  }

  /** Conversely, a range is read only from a name of one of the three shapes into which exactly that range is
      printed, in whole microseconds from 1970 on. */
  lemma NamesWithARange(filename: string)
    ensures var r := GetTimeRangeFromFileName(filename); var parts := Split(Base(filename), '_');
      r.Range? ==> (|parts| == 6 || |parts| == 9 || |parts| == 10)
                   && Base(filename) == NameOf(OtherParts(parts), r.start, r.end)
                   && r.sensorid == SensorOf(OtherParts(parts))
                   && IsStampRange(r)
  {
    JoinOfSplit(Base(filename), '_');
    var parts := Split(Base(filename), '_');
    if |parts| == 6 || |parts| == 9 || |parts| == 10 {
      PartsWithARange(parts);
    }
  }

  // The field is the stamp of an instant, of one before 1970.
  ghost predicate IsStamp(field: string) {
    exists t: Instant :: StampOf(t) == field
  }

  ghost predicate IsOldStamp(field: string) {
    exists t: Instant :: StampOf(t) == field && t < EPOCH
  }

  lemma OldStamps(field: string)
    requires |field| == 20
    ensures IsStamp(field) <==> ParseField(field).Some?
    ensures IsOldStamp(field) <==> ParseField(field).Some? && ParseField(field).value < EPOCH
  {
    ParsesExactlyStamps(field);
    if ParseField(field).Some? {
      StampOfParse(field);
    }
    if t: Instant :| StampOf(t) == field && t < EPOCH {
      ParseOfStamp(t);
      TruncatedEpoch(t);
    }
  }

  // Where the two fields stand in a name of one of the three shapes.
  function FieldsAt(parts: seq<string>): nat {
    if |parts| == 6 then 0 else 2
  }

  predicate HasFields(parts: seq<string>) {
    (|parts| == 6 || |parts| == 9 || |parts| == 10)
    && |parts[FieldsAt(parts)]| == 20 && |parts[FieldsAt(parts) + 1]| == 20
  }

  /** Which names are read as the clock, of all names: those of the three shapes with two 20-character fields whose
      first is the stamp of an instant before 1970, whatever the second is, or whose first is any stamp and second
      that of an instant before 1970. A name that is neither read as the clock nor as a range is refused. */
  lemma NamesReadAsNow(filename: string)
    ensures var parts := Split(Base(filename), '_');
            GetTimeRangeFromFileName(filename).Now?
            <==> HasFields(parts) && var at := FieldsAt(parts);
                 IsOldStamp(parts[at]) || (IsStamp(parts[at]) && IsOldStamp(parts[at + 1]))
    ensures var parts := Split(Base(filename), '_');
            GetTimeRangeFromFileName(filename).Range?
            <==> HasFields(parts) && var at := FieldsAt(parts);
                 IsStamp(parts[at]) && !IsOldStamp(parts[at]) && IsStamp(parts[at + 1]) && !IsOldStamp(parts[at + 1])
  {
    var parts := Split(Base(filename), '_');
    if HasFields(parts) {
      OldStamps(parts[FieldsAt(parts)]);
      OldStamps(parts[FieldsAt(parts) + 1]);
    }
  }
}
