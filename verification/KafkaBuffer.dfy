/** The buffer of rows on their way to Kafka: bounded, skipping repeats, sent in batches. */
module KafkaBuffer {
  import opened Arithmetic

  datatype Row = Row(ts: int, sensorID: string, arcData: real)

  // A batch handed to the client, and whether it was sent.
  datatype Batch = Batch(rows: seq<Row>, sent: bool)

  datatype State = State(lasttime: int, held: seq<Row>, batches: seq<Batch>)

  // flush reads the count before it takes the lock, so other calls may come between its test and its insert:
  // an Insert may happen at any time, even with nothing held.
  datatype Op = Append(data: seq<Row>) | Insert(sent: bool)

  // The rows of a call that are kept: not a first one that repeats the last time kept, and only up to the free space.
  function Kept(max: nat, lasttime: int, held: nat, data: seq<Row>): (kept: seq<Row>)
    requires held <= max
    ensures held + |kept| <= max
  {
    var rest := if data != [] && data[0].ts == lasttime then data[1..] else data;
    rest[..Min(|rest|, max - held)]
  }

  function LastTime(rows: seq<Row>, before: int): int {
    if rows == [] then before else rows[|rows| - 1].ts
  }

  predicate Fits(max: nat, s: State) {
    |s.held| <= max
  }

  function Step(max: nat, s: State, op: Op): (s': State)
    requires Fits(max, s)
    ensures Fits(max, s')
  {
    match op
    case Append(data) =>
      var kept := Kept(max, s.lasttime, |s.held|, data);
      State(LastTime(kept, s.lasttime), s.held + kept, s.batches)
    case Insert(sent) =>
      State(s.lasttime, [], s.batches + [Batch(s.held, sent)])
  }

  /** Row by row: a row is dropped exactly when it leads the call and repeats the last time kept, or when the
      buffer is full by then. */
  lemma KeptRowByRow(max: nat, lasttime: int, held: nat, data: seq<Row>, i: nat)
    requires held <= max && i < |data|
    ensures var before := Kept(max, lasttime, held, data[..i]);
      Kept(max, lasttime, held, data[..i + 1]) ==
        if (i == 0 && data[0].ts == lasttime) || held + |before| == max then before else before + [data[i]]
  {
    var d, e := data[..i], data[..i + 1];
    assert e == d + [data[i]] && e[0] == data[0];
    if data[0].ts == lasttime {
      assert i > 0 ==> d[1..] + [data[i]] == e[1..];
    }
  }

  function After(max: nat, ops: seq<Op>): (s: State)
    ensures Fits(max, s)
  {
    if ops == [] then State(0, [], []) else Step(max, After(max, ops[..|ops| - 1]), ops[|ops| - 1])
  }

  // The same run seen as one growing log of the rows kept, and how much of it has been taken into batches.
  datatype Log = Log(rows: seq<Row>, taken: nat)

  predicate ValidLog(max: nat, l: Log) {
    l.taken <= |l.rows| <= l.taken + max
  }

  function LogStep(max: nat, l: Log, op: Op): (l': Log)
    requires ValidLog(max, l)
    ensures ValidLog(max, l')
  {
    match op
    case Append(data) => l.(rows := l.rows + Kept(max, LastTime(l.rows, 0), |l.rows| - l.taken, data))
    case Insert(_) => l.(taken := |l.rows|)
  }

  function LogAfter(max: nat, ops: seq<Op>): (l: Log)
    ensures ValidLog(max, l)
  {
    if ops == [] then Log([], 0) else LogStep(max, LogAfter(max, ops[..|ops| - 1]), ops[|ops| - 1])
  }

  function RowsOf(batches: seq<Batch>): seq<Row> {
    if batches == [] then [] else RowsOf(batches[..|batches| - 1]) + batches[|batches| - 1].rows
  }

  function Delivered(batches: seq<Batch>): seq<Row> {
    if batches == [] then []
    else
      var b := batches[|batches| - 1];
      Delivered(batches[..|batches| - 1]) + (if b.sent then b.rows else [])
  }

  predicate Matches(max: nat, s: State, l: Log) {
    && ValidLog(max, l) && RowsOf(s.batches) == l.rows[..l.taken] && s.held == l.rows[l.taken..]
    && s.lasttime == LastTime(l.rows, 0)
  }

  lemma StepMatches(max: nat, s: State, l: Log, op: Op)
    requires Fits(max, s) && Matches(max, s, l)
    ensures Matches(max, Step(max, s, op), LogStep(max, l, op))
  {
    match op {
      case Append(data) =>
        var kept := Kept(max, s.lasttime, |s.held|, data);
        assert (l.rows + kept)[..l.taken] == l.rows[..l.taken];
        assert (l.rows + kept)[l.taken..] == l.rows[l.taken..] + kept;
      case Insert(sent) =>
        assert (s.batches + [Batch(s.held, sent)])[..|s.batches|] == s.batches;
        assert l.rows[..l.taken] + l.rows[l.taken..] == l.rows;
    }
  }

  /** Over any run the batches followed by the held rows are the rows kept, each once and in order, and the
      buffer is never overfull. */
  lemma {:induction false} RunConserves(max: nat, ops: seq<Op>)
    ensures var s, l := After(max, ops), LogAfter(max, ops);
      |s.held| <= max && RowsOf(s.batches) + s.held == l.rows && s.lasttime == LastTime(l.rows, 0) && Matches(max, s, l)
  {
    if ops != [] {
      RunConserves(max, ops[..|ops| - 1]);
      StepMatches(max, After(max, ops[..|ops| - 1]), LogAfter(max, ops[..|ops| - 1]), ops[|ops| - 1]);
    }
    var l := LogAfter(max, ops);
    assert l.rows[..l.taken] + l.rows[l.taken..] == l.rows;
  }

  /** The last time kept is that of the last row kept over the whole run, and 0 before the first. */
  lemma LastTimeIsOfLastRow(max: nat, ops: seq<Op>)
    ensures var s, l := After(max, ops), LogAfter(max, ops);
            s.lasttime == if l.rows == [] then 0 else l.rows[|l.rows| - 1].ts
  {
    RunConserves(max, ops);
  }

  /** Two calls of one row each with the same time keep one row, wherever in a run and whatever was sent between. */
  lemma RepeatIsDropped(max: nat, s: State, v: Row, w: Row, flushed: bool, sent: bool)
    requires Fits(max, s) && v.ts == w.ts && v.ts != s.lasttime && |s.held| < max
    ensures var s1 := Step(max, s, Append([v]));
            var s2 := if flushed then Step(max, s1, Insert(sent)) else s1;
            && s1.held == s.held + [v] && s1.lasttime == v.ts
            && Step(max, s2, Append([w])) == s2
  {
    var s1 := Step(max, s, Append([v]));
    assert s1.held == s.held + [v];
    var s2 := if flushed then Step(max, s1, Insert(sent)) else s1;
    assert Kept(max, s2.lasttime, |s2.held|, [w]) == [];
  }

  predicate NothingLost(batches: seq<Batch>) {
    forall i :: 0 <= i < |batches| ==> batches[i].sent || batches[i].rows == []
  }

  lemma {:induction false} DeliveredIsAll(batches: seq<Batch>)
    ensures |Delivered(batches)| <= |RowsOf(batches)|
    ensures |Delivered(batches)| == |RowsOf(batches)| <==> NothingLost(batches)
    ensures NothingLost(batches) ==> Delivered(batches) == RowsOf(batches)
  {
    if batches != [] {
      var init := batches[..|batches| - 1];
      DeliveredIsAll(init);
      if NothingLost(init) && (batches[|batches| - 1].sent || batches[|batches| - 1].rows == []) {
        assert forall i :: 0 <= i < |init| ==> batches[i] == init[i];
      }
      if NothingLost(batches) {
        assert forall i :: 0 <= i < |init| ==> init[i] == batches[i];
      }
    }
  }

  /** What was delivered followed by what is held is all that was kept, exactly when no batch with rows failed. */
  lemma LostExactlyByFailedSends(max: nat, ops: seq<Op>)
    ensures var s := After(max, ops);
      Delivered(s.batches) + s.held == LogAfter(max, ops).rows <==> NothingLost(s.batches)
  {
    RunConserves(max, ops);
    var s := After(max, ops);
    DeliveredIsAll(s.batches);
    if Delivered(s.batches) + s.held == LogAfter(max, ops).rows {
      assert |Delivered(s.batches)| == |RowsOf(s.batches)|;
    }
  }

  class ArcBuffer {
    const max: nat
    const rows: array<Row>
    var lasttime: int
    var count: nat
    ghost var batches: seq<Batch>

    ghost predicate Valid()
      reads this
    {
      rows.Length == max && count <= max
    }

    ghost function Abs(): State
      reads this, rows
      requires Valid()
    {
      State(lasttime, rows[..count], batches)
    }

    constructor (max: nat, blank: Row)
      ensures Valid() && this.max == max && fresh(rows)
      ensures Abs() == State(0, [], [])
    {
      this.max := max;
      rows := new Row[max](_ => blank);
      lasttime, count, batches := 0, 0, [];
    }

    /** Copies the held rows, in order, into a batch of its own. */
    method BatchRows() returns (strArray: array<Row>)
      requires Valid()
      ensures fresh(strArray) && strArray[..] == rows[..count]
    {
      if count == 0 {
        strArray := new Row[0];
        return;
      }
      var blank := rows[0];
      strArray := new Row[count](_ => blank);
      for i := 0 to count
        invariant strArray[..i] == rows[..i]
      {
        strArray[i] := Row(rows[i].ts, rows[i].sensorID, rows[i].arcData);
      }
    }

    /** Sends the held rows; they are gone afterwards even when sending fails. */
    method insert(sent: bool) returns (err: bool)
      requires Valid()
      modifies this
      ensures Valid() && Abs() == Step(max, old(Abs()), Insert(sent)) && err == !sent
    {
      var strArray := BatchRows();
      batches := batches + [Batch(strArray[..], sent)];
      err := !sent;
      count := 0;
    }

    /** Sends a batch when something is held; an overfull buffer would be an error, and there is none. */
    method flush(sent: bool) returns (err: bool)
      requires Valid()
      modifies this
      ensures Valid()
      ensures Abs() == if old(count) > 0 then Step(max, old(Abs()), Insert(sent)) else old(Abs())
      ensures err <==> old(count) > 0 && !sent
    {
      if count > max {
        // "arc count more than max"
        assert false;
      }
      if count > 0 {
        err := insert(sent);
      } else {
        err := false;
      }
    }

    /** Keeps the rows of the call that are neither a leading repeat nor beyond the buffer's end. */
    method append(data: seq<Row>)
      requires Valid()
      modifies this, rows
      ensures Valid() && Abs() == Step(max, old(Abs()), Append(data))
    {
      ghost var skip := if data != [] && data[0].ts == lasttime then 1 else 0;
      ghost var kept := Kept(max, lasttime, count, data);
      ghost var n := 0;
      for i := 0 to |data|
        invariant Valid() && unchanged(this`batches)
        invariant n == if i < skip then 0 else i - skip
        invariant n <= |kept| && count == old(count) + n
        invariant rows[..count] == old(rows[..count]) + kept[..n]
        invariant lasttime == LastTime(kept[..n], old(lasttime))
      {
        var v := data[i];
        if i == 0 && v.ts == lasttime {
          continue;
        }
        if count >= max {
          assert kept[..n] == kept;
          return;
        }
        lasttime := v.ts;
        rows[count] := v;
        count := count + 1;
        n := n + 1;
        assert kept[n - 1] == v;
      }
      assert kept[..n] == kept;
    }
  }
}
