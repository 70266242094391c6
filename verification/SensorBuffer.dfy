/**
 What happens to the frames of one sensor (pkg/handles.go lines 321 to 367 and 400 to 421,
 pkg/arc_volume/arc_volume_cache.go lines 237 to 284), as a sequential machine on values.
*/
module SensorBuffer {
  import opened Wrappers
  import opened BigEndian

  // An ArcVolume in the DataCache. Times are instants; None is the zero time. `minuteOf` is the instant
  // whose minute MinuteStr shows.
  datatype Volume = Volume(
    createTime: int,
    saveTime: Option<int>,
    lastTimestamp: Option<int>,
    minuteOf: Option<int>,
    buffer: seq<Byte>)

  // What is handed to the write queue.
  datatype Chunk = Chunk(createTime: int, saveTime: Option<int>, minuteOf: Option<int>, data: seq<Byte>)

  // `watched`: the sensor has an entry in timeoutSyncMap, the map both the timeout walk and the shutdown
  // walk enumerate.
  datatype Sensor = Sensor(volume: Option<Volume>, watched: bool, chunks: seq<Chunk>)

  const UNKNOWN := Sensor(None, false, [])

  // `stored` answers the write.
  datatype Event = FrameIn(timestamp: int, data: seq<Byte>, stored: bool) | TimeoutIn(stored: bool)

  // PreWriteToFileCache copies all but the last `secondHalfSize` bytes, or everything when there are not
  // more than that many.
  function Copied(buffer: seq<Byte>, secondHalfSize: nat): seq<Byte> {
    if |buffer| > secondHalfSize then buffer[..|buffer| - secondHalfSize] else buffer
  }

  function NewVolume(timestamp: int, data: seq<Byte>): Volume {
    Volume(timestamp, None, None, None, data)
  }

  function ChunkOf(v: Volume, saveTime: Option<int>): Chunk {
    Chunk(v.createTime, saveTime, v.minuteOf, Copied(v.buffer, 0))
  }

  // The effect of one event. A failed write of a frame is only logged; a failed write on a timeout keeps
  // the volume.
  function Apply(s: Sensor, e: Event): Sensor {
    match e
    case FrameIn(timestamp, data, _) =>
      if s.volume.None? then s.(volume := Some(NewVolume(timestamp, data)))
      else
        var v := s.volume.value.(saveTime := Some(timestamp), lastTimestamp := Some(timestamp),
                                 buffer := s.volume.value.buffer + data);
        Sensor(Some(v.(minuteOf := Some(v.createTime), buffer := data)), true, s.chunks + [ChunkOf(v, Some(timestamp))])
    case TimeoutIn(stored) =>
      if s.volume.None? || |s.volume.value.buffer| < 1 then s
      else
        var c := ChunkOf(s.volume.value, s.volume.value.saveTime);
        if stored then Sensor(None, false, s.chunks + [c]) else s.(chunks := s.chunks + [c])
  }

  function Run(s: Sensor, es: seq<Event>): Sensor {
    if es == [] then s else Apply(Run(s, es[..|es| - 1]), es[|es| - 1])
  }

  lemma RunAppend(s: Sensor, es: seq<Event>, e: Event)
    ensures Run(s, es + [e]) == Apply(Run(s, es), e)
  {
    assert (es + [e])[..|es|] == es;
  }

  // ---------- one session: frames after the sensor was unknown ----------

  predicate AllFrames(es: seq<Event>) {
    forall i :: 0 <= i < |es| ==> es[i].FrameIn?
  }

  // The chunk that frame k + 1 causes: frames k and k + 1, named after the first frame of the session.
  function PairChunk(fs: seq<Event>, k: nat): Chunk
    requires AllFrames(fs) && k + 1 < |fs|
  {
    Chunk(fs[0].timestamp, Some(fs[k + 1].timestamp), if k == 0 then None else Some(fs[0].timestamp),
          fs[k].data + fs[k + 1].data)
  }

  predicate SessionState(s: Sensor, before: seq<Chunk>, watched: bool, fs: seq<Event>)
    requires AllFrames(fs) && fs != []
  {
    && s.volume.Some? && s.volume.value.createTime == fs[0].timestamp
    && s.volume.value.buffer == fs[|fs| - 1].data
    && s.volume.value.saveTime == (if |fs| == 1 then None else Some(fs[|fs| - 1].timestamp))
    && s.volume.value.minuteOf == (if |fs| == 1 then None else Some(fs[0].timestamp))
    && s.watched == (watched || |fs| > 1)
    && |s.chunks| == |before| + |fs| - 1 && s.chunks[..|before|] == before
    && forall k :: 0 <= k < |fs| - 1 ==> s.chunks[|before| + k] == PairChunk(fs, k)
  }

  /** A session of frames f1, ..., fn queues exactly f1 ++ f2, f2 ++ f3, ..., f(n-1) ++ fn, all named after
      f1's time; the buffer holds just fn; the timeout map knows the sensor from the second frame on. */
  lemma {:induction false} Session(s: Sensor, fs: seq<Event>)
    requires s.volume.None? && fs != [] && AllFrames(fs)
    ensures SessionState(Run(s, fs), s.chunks, s.watched, fs)
  {
    var front, e := fs[..|fs| - 1], fs[|fs| - 1];
    if front == [] {
      assert Run(s, front) == s;
    } else {
      Session(s, front);
      SessionStep(Run(s, front), s.chunks, s.watched, front, e);
      assert front + [e] == fs;
    }
  }

  lemma SessionStep(s: Sensor, before: seq<Chunk>, watched: bool, fs: seq<Event>, e: Event)
    requires AllFrames(fs) && fs != [] && SessionState(s, before, watched, fs) && e.FrameIn?
    ensures AllFrames(fs + [e]) && SessionState(Apply(s, e), before, watched, fs + [e])
  {
    var s', fs' := Apply(s, e), fs + [e];
    forall k | 0 <= k < |fs'| - 1 ensures s'.chunks[|before| + k] == PairChunk(fs', k) {
      if k < |fs| - 1 {
        assert s.chunks[|before| + k] == PairChunk(fs, k);
      }
    }
  }

  /** A timeout with a successful write queues the last frame once more, alone, and forgets the sensor; with
      an empty last frame it does nothing at all. */
  lemma SessionTimeout(s: Sensor, fs: seq<Event>)
    requires s.volume.None? && fs != [] && AllFrames(fs)
    ensures var last := fs[|fs| - 1];
            var r := Run(s, fs + [TimeoutIn(true)]);
            if last.data == [] then r == Run(s, fs)
            else r.volume.None? && !r.watched && |r.chunks| == |Run(s, fs).chunks| + 1
                 && r.chunks[..|Run(s, fs).chunks|] == Run(s, fs).chunks
                 && r.chunks[|r.chunks| - 1].data == last.data
  {
    Session(s, fs);
    RunAppend(s, fs, TimeoutIn(true));
  }

  /** A timeout whose write failed keeps everything for the next attempt. */
  lemma FailedFlushKeepsVolume(s: Sensor)
    requires s.volume.Some? && s.volume.value.buffer != []
    ensures var c := ChunkOf(s.volume.value, s.volume.value.saveTime);
            Run(s, [TimeoutIn(false), TimeoutIn(true)]).chunks == s.chunks + [c, c]
  {
    RunAppend(s, [TimeoutIn(false)], TimeoutIn(true));
    assert [TimeoutIn(false)] + [TimeoutIn(true)] == [TimeoutIn(false), TimeoutIn(true)];
    RunAppend(s, [], TimeoutIn(false));
    assert [] + [TimeoutIn(false)] == [TimeoutIn(false)];
  }

  // What the timeout walk and the shutdown walk do for one sensor: an event is sent only if it is watched.
  function Walk(s: Sensor, stored: bool): Sensor {
    if s.watched then Apply(s, TimeoutIn(stored)) else s
  }

  /** A session of one frame is lost, at whatever point of a sensor's life: no walk, not even the one at shutdown,
      queues it, as the sensor enters the timeout map with the second frame only. From two frames on, something is
      queued. */
  lemma LoneSessionIsLost(s: Sensor, fs: seq<Event>, stored: bool)
    requires s.volume.None? && !s.watched && fs != [] && AllFrames(fs)
    ensures Walk(Run(s, fs), stored).chunks == s.chunks <==> |fs| == 1
  {
    Session(s, fs);
  }
}
