/**
 The whole life of one sensor: any list of frames and timeouts, over any number of sessions and flushes, in
 closed form, and which of its frames never reach the write queue.
*/
module SensorLife {
  import opened Wrappers
  import opened BigEndian
  import opened SensorBuffer

  // A timeout either reaches the sensor whatever happened, or, with `walked`, is a walk over the timeout map,
  // which passes over a sensor that is not watched.
  function Turn(s: Sensor, e: Event, walked: bool): Sensor {
    if walked && e.TimeoutIn? then Walk(s, e.stored) else Apply(s, e)
  }

  // The sensor after the first n events.
  function Life(es: seq<Event>, n: nat, walked: bool): Sensor
    requires n <= |es|
  {
    if n == 0 then UNKNOWN else Turn(Life(es, n - 1, walked), es[n - 1], walked)
  }

  // Positions of frames.
  predicate Frames(es: seq<Event>, p: seq<nat>, n: nat) {
    n <= |es| && forall k :: 0 <= k < |p| ==> p[k] < n && es[p[k]].FrameIn?
  }

  function Last(p: seq<nat>): nat
    requires p != []
  {
    p[|p| - 1]
  }

  // A timeout hands over the last frame of the session, unless it is empty, or alone and passed over.
  predicate Flushes(es: seq<Event>, p: seq<nat>, walked: bool)
    requires Frames(es, p, |es|)
  {
    |p| >= (if walked then 2 else 1) && es[Last(p)].data != []
  }

  // The session: the positions of the frames since the last successful flush.
  function Since(es: seq<Event>, n: nat, walked: bool): (p: seq<nat>)
    requires n <= |es|
    ensures Frames(es, p, n)
  {
    if n == 0 then []
    else
      var p, e := Since(es, n - 1, walked), es[n - 1];
      if e.FrameIn? then p + [n - 1]
      else if e.stored && Flushes(es, p, walked) then []
      else p
  }

  // What one chunk is made of: the last two frames of a session, or the last one, with the session until then.
  datatype Part = Pair(session: seq<nat>) | Rest(session: seq<nat>)

  predicate PartOk(es: seq<Event>, part: Part, n: nat) {
    Frames(es, part.session, n) && |part.session| >= (if part.Pair? then 2 else 1)
  }

  predicate PartsOk(es: seq<Event>, parts: seq<Part>, n: nat) {
    forall k :: 0 <= k < |parts| ==> PartOk(es, parts[k], n)
  }

  // The chunks queued, in order.
  function Parts(es: seq<Event>, n: nat, walked: bool): (parts: seq<Part>)
    requires n <= |es|
    ensures PartsOk(es, parts, n)
  {
    if n == 0 then []
    else
      var parts, p, e := Parts(es, n - 1, walked), Since(es, n - 1, walked), es[n - 1];
      if e.FrameIn? then (if p == [] then parts else parts + [Pair(p + [n - 1])])
      else if Flushes(es, p, walked) then parts + [Rest(p)]
      else parts
  }

  // A chunk is named after the first frame of its session; its save time is that of its last frame.
  function PartChunk(es: seq<Event>, part: Part): Chunk
    requires PartOk(es, part, |es|)
  {
    var p := part.session;
    var first, last := es[p[0]], es[Last(p)];
    match part
    case Pair(_) =>
      Chunk(first.timestamp, Some(last.timestamp), if |p| == 2 then None else Some(first.timestamp),
            es[p[|p| - 2]].data + last.data)
    case Rest(_) =>
      Chunk(first.timestamp, if |p| == 1 then None else Some(last.timestamp),
            if |p| == 1 then None else Some(first.timestamp), last.data)
  }

  function PartChunks(es: seq<Event>, parts: seq<Part>): seq<Chunk>
    requires PartsOk(es, parts, |es|)
  {
    seq(|parts|, k requires 0 <= k < |parts| => PartChunk(es, parts[k]))
  }

  // The cached volume of a session.
  function SessionVolume(es: seq<Event>, p: seq<nat>): Volume
    requires p != [] && Frames(es, p, |es|)
  {
    var first, last := es[p[0]], es[Last(p)];
    if |p| == 1 then Volume(first.timestamp, None, None, None, first.data)
    else Volume(first.timestamp, Some(last.timestamp), Some(last.timestamp), Some(first.timestamp), last.data)
  }

  function SensorOf(es: seq<Event>, p: seq<nat>, parts: seq<Part>): Sensor
    requires Frames(es, p, |es|) && PartsOk(es, parts, |es|)
  {
    Sensor(if p == [] then None else Some(SessionVolume(es, p)), |p| >= 2, PartChunks(es, parts))
  }

  lemma PartAppend(es: seq<Event>, parts: seq<Part>, part: Part)
    requires PartsOk(es, parts, |es|) && PartOk(es, part, |es|)
    ensures PartsOk(es, parts + [part], |es|)
    ensures PartChunks(es, parts + [part]) == PartChunks(es, parts) + [PartChunk(es, part)]
  {
  }

  lemma CopiedWhole(data: seq<Byte>)
    ensures Copied(data, 0) == data
  {
  }

  lemma FrameTurn(es: seq<Event>, n: nat, p: seq<nat>, parts: seq<Part>, walked: bool)
    requires n < |es| && es[n].FrameIn? && Frames(es, p, |es|) && PartsOk(es, parts, |es|)
    ensures Frames(es, p + [n], |es|) && (p != [] ==> PartOk(es, Pair(p + [n]), |es|))
    ensures p == [] ==> Turn(SensorOf(es, p, parts), es[n], walked) == SensorOf(es, [n], parts)
    ensures p != [] ==> PartsOk(es, parts + [Pair(p + [n])], |es|)
                        && Turn(SensorOf(es, p, parts), es[n], walked) == SensorOf(es, p + [n], parts + [Pair(p + [n])])
  {
    if p != [] {
      PartAppend(es, parts, Pair(p + [n]));
      CopiedWhole(es[Last(p)].data + es[n].data);
    }
  }

  lemma TimeoutTurn(es: seq<Event>, n: nat, p: seq<nat>, parts: seq<Part>, walked: bool)
    requires n < |es| && es[n].TimeoutIn? && Frames(es, p, |es|) && PartsOk(es, parts, |es|)
    ensures !Flushes(es, p, walked) ==> Turn(SensorOf(es, p, parts), es[n], walked) == SensorOf(es, p, parts)
    ensures Flushes(es, p, walked) ==>
              && PartsOk(es, parts + [Rest(p)], |es|)
              && Turn(SensorOf(es, p, parts), es[n], walked)
                 == SensorOf(es, if es[n].stored then [] else p, parts + [Rest(p)])
  {
    if Flushes(es, p, walked) {
      PartAppend(es, parts, Rest(p));
      CopiedWhole(es[Last(p)].data);
    }
  }

  /** The life of a sensor in closed form: the cache holds the session's last frame, the timeout map knows the
      sensor from the session's second frame on, and the queue has got each two consecutive frames of each
      session, and the last frame of a session once more for each timeout that reached it. */
  lemma {:induction false} WholeLife(es: seq<Event>, n: nat, walked: bool)
    requires n <= |es|
    ensures Life(es, n, walked) == SensorOf(es, Since(es, n, walked), Parts(es, n, walked))
  {
    if n > 0 {
      var p, parts := Since(es, n - 1, walked), Parts(es, n - 1, walked);
      WholeLife(es, n - 1, walked);
      if es[n - 1].FrameIn? {
        FrameTurn(es, n - 1, p, parts, walked);
      } else {
        TimeoutTurn(es, n - 1, p, parts, walked);
      }
    } else {
      assert PartChunks(es, []) == [];
    }
  }

  // ---------- lost frames ----------

  // The frame at position i is in the chunk.
  predicate Carries(part: Part, i: nat) {
    var p := part.session;
    (p != [] && i == Last(p)) || (part.Pair? && |p| >= 2 && i == p[|p| - 2])
  }

  predicate Queued(parts: seq<Part>, i: nat) {
    exists k :: 0 <= k < |parts| && Carries(parts[k], i)
  }

  // No timeout that came after the frame at position i handed it over.
  predicate Unflushed(es: seq<Event>, i: nat, n: nat, walked: bool)
    requires i < n <= |es| && es[i].FrameIn?
  {
    walked || es[i].data == [] || forall j :: i < j < n ==> es[j].FrameIn?
  }

  lemma QueuedAppend(parts: seq<Part>, part: Part, i: nat)
    ensures Queued(parts + [part], i) <==> Queued(parts, i) || Carries(part, i)
  {
    if k :| 0 <= k < |parts| && Carries(parts[k], i) {
      assert Carries((parts + [part])[k], i);
    }
    if Carries(part, i) {
      assert Carries((parts + [part])[|parts|], i);
    }
  }

  // The condition for the frame at position i to be in no chunk so far.
  predicate LostIffAlone(es: seq<Event>, n: nat, i: nat, walked: bool)
    requires i < n <= |es| && es[i].FrameIn?
  {
    !Queued(Parts(es, n, walked), i) <==> Since(es, n, walked) == [i] && Unflushed(es, i, n, walked)
  }

  /** The exact loss: a frame is in no chunk if and only if it is the only frame since the last successful flush and
      no timeout has handed it over. A walk, the one at shutdown included, never does: so with walks a frame is lost
      exactly when it is alone in its session and nothing follows it. */
  lemma {:induction false} LostExactlyWhenAlone(es: seq<Event>, n: nat, i: nat, walked: bool)
    requires i < n <= |es| && es[i].FrameIn?
    ensures LostIffAlone(es, n, i, walked)
  {
    if i == n - 1 {
      FirstTurn(es, i, walked);
    } else {
      LostExactlyWhenAlone(es, n - 1, i, walked);
      LaterTurn(es, n - 1, i, walked);
    }
  }

  // A frame that has just come in is queued exactly when it is not the first of its session.
  lemma FirstTurn(es: seq<Event>, i: nat, walked: bool)
    requires i < |es| && es[i].FrameIn?
    ensures LostIffAlone(es, i + 1, i, walked)
  {
    var p, parts := Since(es, i, walked), Parts(es, i, walked);
    NotYetQueued(es, i, walked);
    QueuedAppend(parts, Pair(p + [i]), i);
    assert p != [] ==> |p + [i]| > 1;
  }

  // What one more event does to an earlier frame.
  lemma LaterTurn(es: seq<Event>, n: nat, i: nat, walked: bool)
    requires i < n < |es| && es[i].FrameIn? && LostIffAlone(es, n, i, walked)
    ensures LostIffAlone(es, n + 1, i, walked)
  {
    var p, parts := Since(es, n, walked), Parts(es, n, walked);
    if es[n].FrameIn? {
      QueuedAppend(parts, Pair(p + [n]), i);
      assert (p + [n])[|p|] == n;
    } else {
      QueuedAppend(parts, Rest(p), i);
    }
  }

  lemma NotYetQueued(es: seq<Event>, n: nat, walked: bool)
    requires n <= |es|
    ensures !Queued(Parts(es, n, walked), n)
  {
    forall k | 0 <= k < |Parts(es, n, walked)|
      ensures !Carries(Parts(es, n, walked)[k], n)
    {
      assert PartOk(es, Parts(es, n, walked)[k], n);
    }
  }

  // p holds all frames from its first one on, in order.
  predicate Contiguous(es: seq<Event>, p: seq<nat>, n: nat)
    requires n <= |es|
  {
    (forall k, l :: 0 <= k < l < |p| ==> p[k] < p[l])
    && (p != [] ==> forall j :: p[0] <= j < n && es[j].FrameIn? ==> j in p)
  }

  lemma ContiguousNext(es: seq<Event>, p: seq<nat>, n: nat)
    requires n < |es| && Frames(es, p, n) && Contiguous(es, p, n)
    ensures Contiguous(es, if es[n].FrameIn? then p + [n] else p, n + 1)
  {
    if es[n].FrameIn? {
      var p' := p + [n];
      assert p'[|p|] == n;
      forall j | p'[0] <= j < n && es[j].FrameIn?
        ensures j in p'
      {
        assert p != [] ==> j in p;
      }
    }
  }

  /** The frames of a session are all frames from its first one on, in order. */
  lemma {:induction false} SessionIsContiguous(es: seq<Event>, n: nat, walked: bool)
    requires n <= |es|
    ensures Contiguous(es, Since(es, n, walked), n)
  {
    if n > 0 {
      SessionIsContiguous(es, n - 1, walked);
      ContiguousNext(es, Since(es, n - 1, walked), n - 1);
    }
  }

  /** At any time of its life, a sensor without a cached volume is in no timeout map. */
  lemma ForgottenIsUnwatched(es: seq<Event>, n: nat, walked: bool)
    requires n <= |es|
    ensures Life(es, n, walked).volume.None? ==> !Life(es, n, walked).watched
  {
    WholeLife(es, n, walked);
  }

  /** A life of timeouts that all reach the sensor is a run of its events. */
  lemma {:induction false} LifeIsRun(es: seq<Event>, n: nat)
    requires n <= |es|
    ensures Life(es, n, false) == Run(UNKNOWN, es[..n])
  {
    if n > 0 {
      LifeIsRun(es, n - 1);
      assert es[..n] == es[..n - 1] + [es[n - 1]];
      RunAppend(UNKNOWN, es[..n - 1], es[n - 1]);
    }
  }

  // The events that reach a sensor when timeouts come from walks.
  function Heard(es: seq<Event>, n: nat): seq<Event>
    requires n <= |es|
  {
    if n == 0 then []
    else if es[n - 1].TimeoutIn? && !Life(es, n - 1, true).watched then Heard(es, n - 1)
    else Heard(es, n - 1) + [es[n - 1]]
  }

  /** A life of frames and walks is a run of the events that reach the sensor. */
  lemma {:induction false} WalksAreRuns(es: seq<Event>, n: nat)
    requires n <= |es|
    ensures Life(es, n, true) == Run(UNKNOWN, Heard(es, n))
  {
    if n > 0 {
      WalksAreRuns(es, n - 1);
      RunAppend(UNKNOWN, Heard(es, n - 1), es[n - 1]);
    }
  }

  /** An input: two frames, a walk that flushes, a third frame and the walk at shutdown. The third frame is lost. */
  lemma FrameAfterFlushIsLost(f1: Event, f2: Event, f3: Event, last: bool)
    requires f1.FrameIn? && f2.FrameIn? && f3.FrameIn? && f2.data != []
    ensures var es := [f1, f2, TimeoutIn(true), f3, TimeoutIn(last)]; !Queued(Parts(es, 5, true), 3)
  {
    var es := [f1, f2, TimeoutIn(true), f3, TimeoutIn(last)];
    assert Since(es, 1, true) == [0];
    assert Since(es, 2, true) == [0, 1];
    assert Since(es, 3, true) == [];
    assert Since(es, 4, true) == [3];
    assert Since(es, 5, true) == [3];
    LostExactlyWhenAlone(es, 5, 3, true);
  }
}
