/**
 The DataCache, the timeout map and the write queue as objects updated in place: who owns which buffer
 (pkg/arc_volume/arc_volume_cache.go lines 237 to 284, pkg/handles.go lines 321 to 367 and 400 to 421).
*/
module VolumeCache {
  import opened Wrappers
  import opened BigEndian
  import opened SensorBuffer
  import opened IngestWorkers
  import opened Folders

  // bytes.Buffer
  class ByteBuffer {
    var data: seq<Byte>

    constructor (initial: seq<Byte>)
      ensures data == initial
    {
      data := initial;
    }

    method Write(b: seq<Byte>)
      modifies this
      ensures data == old(data) + b
    {
      data := data + b;
    }

    method Reset()
      modifies this
      ensures data == []
    {
      data := [];
    }
  }

  class ArcVolume {
    var sensorId: nat
    var buffer: ByteBuffer
    var createTime: int
    var saveTime: Option<int>
    var lastTimestamp: Option<int>
    var minuteOf: Option<int>
    const dir: string
    const kind: string

    constructor (sensorId: nat, buffer: ByteBuffer, createTime: int, saveTime: Option<int>, minuteOf: Option<int>,
                 dir: string, kind: string)
      ensures this.sensorId == sensorId && this.buffer == buffer && this.createTime == createTime
      ensures this.saveTime == saveTime && this.lastTimestamp == None && this.minuteOf == minuteOf
      ensures this.dir == dir && this.kind == kind
    {
      this.sensorId, this.buffer, this.createTime := sensorId, buffer, createTime;
      this.saveTime, this.lastTimestamp, this.minuteOf := saveTime, None, minuteOf;
      this.dir, this.kind := dir, kind;
    }

    // The volume's value.
    function Get(): Volume
      reads this, buffer
    {
      Volume(createTime, saveTime, lastTimestamp, minuteOf, buffer.data)
    }

    // What a queued volume stands for.
    function AsChunk(): Submitted
      reads this, buffer
    {
      Submitted(sensorId, Chunk(createTime, saveTime, minuteOf, buffer.data))
    }

    // The deep copy that PreWriteToFileCache makes of the buffer.
    method DeepCopy(secondHalfSize: nat) returns (copy: ByteBuffer)
      ensures fresh(copy) && copy.data == Copied(buffer.data, secondHalfSize)
    {
      copy := new ByteBuffer([]);
      if |buffer.data| > secondHalfSize {
        copy.Write(buffer.data[..|buffer.data| - secondHalfSize]);
      } else {
        copy.Write(buffer.data);
      }
      assert copy.data == Copied(buffer.data, secondHalfSize);
    }

    /** Update: the old buffer is emptied and replaced by a new one. */
    method Update(t: int)
      modifies this, buffer
      ensures fresh(buffer)
      ensures Get() == old(Get()).(minuteOf := Some(t), buffer := [])
      ensures sensorId == old(sensorId)
    {
      var b := new ByteBuffer([]);
      buffer.Reset();
      minuteOf := Some(t);
      buffer := b;
    }
  }

  // What one event of a sensor does to the shared values.
  ghost predicate Stepped(before: Sensor, e: Event, id: nat, volumes: map<nat, Volume>, volumes': map<nat, Volume>,
                          watched: set<nat>, watched': set<nat>, chunks: seq<Submitted>, chunks': seq<Submitted>)
    requires before.chunks == []
  {
    var after := Apply(before, e);
    && volumes' == (if after.volume.Some? then volumes[id := after.volume.value] else volumes - {id})
    && watched' == (if after.watched then watched + {id} else watched - {id})
    && chunks' == chunks + Tagged(id, after.chunks)
  }

  function Tagged(id: nat, cs: seq<Chunk>): seq<Submitted> {
    if cs == [] then [] else [Submitted(id, cs[0])] + Tagged(id, cs[1..])
  }

  // `volumes` and `chunks` are the values the objects stand for.
  // `dataPath` is the configured root; `dayText` prints a time as 20060102 in the local time zone.
  class Store {
    const dataPath: string
    const dayText: int -> string
    var dataCache: map<nat, ArcVolume>
    var watched: set<nat>
    var queued: seq<ArcVolume>
    ghost var volumes: map<nat, Volume>
    ghost var chunks: seq<Submitted>
    ghost var Repr: set<object>

    // Cached objects stand for `volumes`, and no two of them share a buffer.
    ghost predicate CacheOk()
      reads this, Repr
    {
      && dataCache.Keys == volumes.Keys
      && (forall id :: id in dataCache ==> dataCache[id] in Repr && dataCache[id].buffer in Repr)
      && (forall id :: id in dataCache ==> dataCache[id].sensorId == id && dataCache[id].Get() == volumes[id])
      && (forall id :: id in dataCache ==> dataCache[id].dir == dataPath && dataCache[id].kind == "Arc")
      && (forall a, b :: a in dataCache && b in dataCache && a != b ==> dataCache[a].buffer != dataCache[b].buffer)
    }

    // Queued objects stand for `chunks`, and share nothing with the cache.
    ghost predicate QueueOk()
      requires CacheOk()
      reads this, Repr
    {
      && |queued| == |chunks|
      && (forall i :: 0 <= i < |queued| ==> queued[i] in Repr && queued[i].buffer in Repr)
      && (forall i :: 0 <= i < |queued| ==> queued[i].AsChunk() == chunks[i])
      && (forall id, i :: id in dataCache && 0 <= i < |queued| ==> dataCache[id] != queued[i])
      && (forall id, i :: id in dataCache && 0 <= i < |queued| ==> dataCache[id].buffer != queued[i].buffer)
    }

    ghost predicate Valid()
      reads this, Repr
    {
      this in Repr && CacheOk() && QueueOk()
    }

    // The directory a chunk is to be written to: the root, the sensor, the day of its first frame, the type.
    function PlaceOf(c: Submitted): string {
      dataPath + "/" + SensorText(c.id) + "/" + dayText(c.chunk.createTime) + "/TypeArc"
    }

    // The objects queued from position n on name their chunks' directories.
    ghost predicate PlacedFrom(n: nat)
      reads this
    {
      forall i :: n <= i < |queued| ==>
        i < |chunks| && queued[i].dir == PlaceOf(chunks[i]) && queued[i].kind == "Arc"
    }

    constructor (dataPath: string, dayText: int -> string)
      ensures Valid() && fresh(Repr) && volumes == map[] && chunks == [] && watched == {}
      ensures this.dataPath == dataPath && this.dayText == dayText
    {
      this.dataPath, this.dayText := dataPath, dayText;
      dataCache, watched, queued := map[], {}, [];
      volumes, chunks := map[], [];
      Repr := {this};
    }

    // One sensor's part of the store, without what is already queued.
    ghost function Local(id: nat): Sensor
      reads this
    {
      Sensor(if id in volumes then Some(volumes[id]) else None, id in watched, [])
    }

    // WriteDataByQueue: the volume becomes the queue's.
    method WriteDataByQueue(data: ArcVolume, stored: bool) returns (ok: bool)
      requires Valid() && data !in Repr && data.buffer !in Repr
      modifies this`queued, this`chunks, this`Repr
      ensures Valid() && Repr == old(Repr) + {data, data.buffer}
      ensures chunks == old(chunks) + [data.AsChunk()] && queued == old(queued) + [data]
      ensures ok == stored
    {
      queued := queued + [data];
      chunks := chunks + [data.AsChunk()];
      Repr := Repr + {data, data.buffer};
      ok := stored;
      assert CacheOk();
    }

    /** PreWriteToFileCache: a deep copy of the buffer goes to the queue. DoTask returns when the write has
        finished; `stored` is its outcome. */
    method PreWriteToFileCache(bf: ArcVolume, t: Option<int>, secondHalfSize: nat, stored: bool) returns (ok: bool)
      requires Valid()
      modifies this`queued, this`chunks, this`Repr
      ensures Valid() && fresh(Repr - old(Repr)) && old(Repr) <= Repr
      ensures var c := Chunk(bf.createTime, t, bf.minuteOf, Copied(bf.buffer.data, secondHalfSize));
              chunks == old(chunks) + [Submitted(bf.sensorId, c)]
      ensures |queued| == |old(queued)| + 1 && queued[..|old(queued)|] == old(queued)
      ensures var data := queued[|old(queued)|];
              && fresh(data) && fresh(data.buffer) && data.kind == bf.kind
              && data.dir == WriteFolder(bf.dir, SensorText(bf.sensorId), dayText(bf.createTime), bf.kind)
      ensures ok == stored
    {
      var buffer := bf.DeepCopy(secondHalfSize);
      var dir := WriteFolder(bf.dir, SensorText(bf.sensorId), dayText(bf.createTime), bf.kind);
      var data := new ArcVolume(bf.sensorId, buffer, bf.createTime, t, bf.minuteOf, dir, bf.kind);
      ok := WriteDataByQueue(data, stored);
    }

    // DataCache.Store
    method StoreVolume(id: nat, afi: ArcVolume)
      requires Valid() && id !in dataCache && afi !in Repr && afi.buffer !in Repr && afi.sensorId == id
      requires afi.dir == dataPath && afi.kind == "Arc"
      modifies this`dataCache, this`volumes, this`Repr
      ensures Valid() && Repr == old(Repr) + {afi, afi.buffer}
      ensures volumes == old(volumes)[id := afi.Get()]
    {
      dataCache := dataCache[id := afi];
      volumes := volumes[id := afi.Get()];
      Repr := Repr + {afi, afi.buffer};
      forall k | k in dataCache && k != id
        ensures dataCache[k] == old(dataCache)[k] && dataCache[k].Get() == volumes[k] && dataCache[k].sensorId == k
        ensures dataCache[k].dir == dataPath && dataCache[k].kind == "Arc"
      {
      }
      assert CacheOk();
    }

    // The first frame of a sensor: a new cache entry.
    method CreateVolume(item: Item)
      requires Valid() && item.id !in dataCache
      modifies this`dataCache, this`volumes, this`Repr
      ensures Valid() && fresh(Repr - old(Repr)) && old(Repr) <= Repr
      ensures volumes == old(volumes)[item.id := NewVolume(item.timestamp, item.data)]
    {
      var buffer := new ByteBuffer([]);
      buffer.Write(item.data);
      assert buffer.data == item.data;
      var afi := new ArcVolume(item.id, buffer, item.timestamp, None, None, dataPath, "Arc");
      StoreVolume(item.id, afi);
    }

    // Changing one cached volume in place, perhaps with a new buffer, leaves all the others as they were.
    twostate lemma OthersUntouched(id: nat)
      requires old(Valid()) && id in old(dataCache)
      requires dataCache == old(dataCache) && queued == old(queued) && chunks == old(chunks)
      requires forall o: ArcVolume :: o in old(Repr) && o != dataCache[id] ==> unchanged(o)
      requires forall o: ByteBuffer :: o in old(Repr) && o != old(dataCache[id].buffer) ==> unchanged(o)
      requires dataCache[id].sensorId == id
      requires dataCache[id].buffer == old(dataCache[id].buffer) || dataCache[id].buffer !in old(Repr)
      requires Repr == old(Repr) + {dataCache[id].buffer} && volumes == old(volumes)[id := dataCache[id].Get()]
      ensures Valid()
    {
      OthersInCache(id);
      OthersInQueue(id);
    }

    twostate lemma OthersInCache(id: nat)
      requires old(Valid()) && id in old(dataCache)
      requires dataCache == old(dataCache)
      requires forall o: ArcVolume :: o in old(Repr) && o != dataCache[id] ==> unchanged(o)
      requires forall o: ByteBuffer :: o in old(Repr) && o != old(dataCache[id].buffer) ==> unchanged(o)
      requires dataCache[id].sensorId == id
      requires dataCache[id].buffer == old(dataCache[id].buffer) || dataCache[id].buffer !in old(Repr)
      requires Repr == old(Repr) + {dataCache[id].buffer} && volumes == old(volumes)[id := dataCache[id].Get()]
      ensures CacheOk()
    {
      forall k | k in dataCache && k != id
        ensures dataCache[k] != dataCache[id] && dataCache[k].Get() == volumes[k]
      {
      }
    }

    twostate lemma OthersInQueue(id: nat)
      requires old(Valid()) && id in old(dataCache) && CacheOk()
      requires dataCache == old(dataCache) && queued == old(queued) && chunks == old(chunks)
      requires forall o: ArcVolume :: o in old(Repr) && o != dataCache[id] ==> unchanged(o)
      requires forall o: ByteBuffer :: o in old(Repr) && o != old(dataCache[id].buffer) ==> unchanged(o)
      requires dataCache[id].buffer == old(dataCache[id].buffer) || dataCache[id].buffer !in old(Repr)
      requires old(Repr) <= Repr
      ensures QueueOk()
    {
    }

    // afi.SaveTime, afi.LastTimestamp and afi.Buffer.Write
    method Merge(item: Item)
      requires Valid() && item.id in dataCache
      modifies Repr
      ensures Valid() && fresh(Repr - old(Repr))
      ensures dataCache == old(dataCache) && watched == old(watched) && chunks == old(chunks) && queued == old(queued)
      ensures volumes == old(volumes)[item.id := Merged(old(volumes)[item.id], item)]
    {
      var afi := dataCache[item.id];
      afi.saveTime := Some(item.timestamp);
      afi.lastTimestamp := Some(item.timestamp);
      afi.buffer.Write(item.data);
      volumes := volumes[item.id := afi.Get()];
      Repr := Repr + {afi.buffer};
      OthersUntouched(item.id);
    }

    // afi.Update(afi.CreateTime)
    method Renew(id: nat)
      requires Valid() && id in dataCache
      modifies Repr
      ensures Valid() && fresh(Repr - old(Repr))
      ensures dataCache == old(dataCache) && watched == old(watched) && chunks == old(chunks) && queued == old(queued)
      ensures volumes == old(volumes)[id := Updated(old(volumes)[id])]
    {
      var afi := dataCache[id];
      afi.Update(afi.createTime);
      volumes := volumes[id := afi.Get()];
      Repr := Repr + {afi.buffer};
      OthersUntouched(id);
    }

    // The second afi.Buffer.Write
    method Rewrite(id: nat, data: seq<Byte>)
      requires Valid() && id in dataCache
      modifies Repr
      ensures Valid() && fresh(Repr - old(Repr))
      ensures dataCache == old(dataCache) && watched == old(watched) && chunks == old(chunks) && queued == old(queued)
      ensures var v := old(volumes)[id]; volumes == old(volumes)[id := v.(buffer := v.buffer + data)]
    {
      var afi := dataCache[id];
      afi.buffer.Write(data);
      volumes := volumes[id := afi.Get()];
      Repr := Repr + {afi.buffer};
      OthersUntouched(id);
    }

    /** handleDecodeResult, for one item: exactly the sequential machine's step on this sensor, nothing on
        any other, and every chunk queued before keeps its bytes. */
    method HandleFrame(item: Item, stored: bool)
      requires Valid()
      modifies Repr
      ensures Valid() && fresh(Repr - old(Repr))
      ensures Stepped(old(Local(item.id)), FrameIn(item.timestamp, item.data, stored), item.id,
                      old(volumes), volumes, old(watched), watched, old(chunks), chunks)
      ensures |old(queued)| <= |queued| && queued[..|old(queued)|] == old(queued) && PlacedFrom(|old(queued)|)
    {
      if item.id !in dataCache {
        CreateVolume(item);
      } else {
        HandleKnown(item, stored);
      }
    }

    // Queueing a cached volume: the chunk is what its value says.
    method QueueVolume(id: nat, t: Option<int>, stored: bool) returns (ok: bool)
      requires Valid() && id in dataCache
      modifies Repr
      ensures Valid() && fresh(Repr - old(Repr)) && ok == stored
      ensures dataCache == old(dataCache) && volumes == old(volumes) && watched == old(watched)
      ensures chunks == old(chunks) + [Submitted(id, ChunkOf(volumes[id], t))]
      ensures |old(queued)| <= |queued| && queued[..|old(queued)|] == old(queued) && PlacedFrom(|old(queued)|)
    {
      assert dataCache[id].Get() == volumes[id];
      ok := PreWriteToFileCache(dataCache[id], t, 0, stored);
    }

    lemma OverwriteTwice(m: map<nat, Volume>, id: nat, v: Volume, w: Volume)
      ensures m[id := v][id := w] == m[id := w]
    {
    }

    // The frame joins the buffer and the buffer is queued.
    method MergeAndQueue(item: Item, stored: bool)
      requires Valid() && item.id in dataCache
      modifies Repr
      ensures Valid() && fresh(Repr - old(Repr))
      ensures dataCache == old(dataCache) && watched == old(watched)
      ensures var v := Merged(old(volumes)[item.id], item);
              && volumes == old(volumes)[item.id := v]
              && chunks == old(chunks) + [Submitted(item.id, ChunkOf(v, Some(item.timestamp)))]
      ensures |old(queued)| <= |queued| && queued[..|old(queued)|] == old(queued) && PlacedFrom(|old(queued)|)
    {
      Merge(item);
      var ok := QueueVolume(item.id, Some(item.timestamp), stored);
    }

    // A new buffer that holds the frame.
    method RenewAndWrite(id: nat, data: seq<Byte>)
      requires Valid() && id in dataCache
      modifies Repr
      ensures Valid() && fresh(Repr - old(Repr))
      ensures dataCache == old(dataCache) && watched == old(watched) && chunks == old(chunks) && queued == old(queued)
      ensures var v := old(volumes)[id];
              volumes == old(volumes)[id := v.(minuteOf := Some(v.createTime), buffer := data)]
    {
      ghost var v := volumes[id];
      Renew(id);
      Rewrite(id, data);
      OverwriteTwice(old(volumes), id, Updated(v), Updated(v).(buffer := data));
      assert [] + data == data;
    }

    method HandleKnown(item: Item, stored: bool)
      requires Valid() && item.id in dataCache
      modifies Repr
      ensures Valid() && fresh(Repr - old(Repr))
      ensures var v := Merged(old(volumes)[item.id], item);
              && volumes == old(volumes)[item.id := v.(minuteOf := Some(v.createTime), buffer := item.data)]
              && chunks == old(chunks) + [Submitted(item.id, ChunkOf(v, Some(item.timestamp)))]
      ensures watched == old(watched) + {item.id}
      ensures |old(queued)| <= |queued| && queued[..|old(queued)|] == old(queued) && PlacedFrom(|old(queued)|)
    {
      ghost var v := Merged(volumes[item.id], item);
      MergeAndQueue(item, stored);
      RenewAndWrite(item.id, item.data);
      OverwriteTwice(old(volumes), item.id, v, v.(minuteOf := Some(v.createTime), buffer := item.data));
      SetWatched(watched + {item.id});
    }

    // timeoutSyncMap.Store and timeoutSyncMap.Delete
    method SetWatched(ids: set<nat>)
      requires Valid()
      modifies this`watched
      ensures Valid() && watched == ids
    {
      watched := ids;
      assert CacheOk();
    }

    // DataCache.Delete
    method RemoveVolume(id: nat)
      requires Valid()
      modifies this`dataCache, this`volumes
      ensures Valid() && volumes == old(volumes) - {id}
    {
      dataCache := dataCache - {id};
      volumes := volumes - {id};
      forall k | k in dataCache
        ensures dataCache[k] == old(dataCache)[k] && dataCache[k].Get() == volumes[k] && dataCache[k].sensorId == k
      {
      }
      assert CacheOk();
    }

    /** loadAndStoreTimeOutData. */
    method LoadAndStoreTimeOutData(id: nat, stored: bool)
      requires Valid()
      modifies Repr
      ensures Valid() && fresh(Repr - old(Repr))
      ensures Stepped(old(Local(id)), TimeoutIn(stored), id,
                      old(volumes), volumes, old(watched), watched, old(chunks), chunks)
      ensures |old(queued)| <= |queued| && queued[..|old(queued)|] == old(queued) && PlacedFrom(|old(queued)|)
    {
      if id !in dataCache { return; }
      assert dataCache[id].Get() == volumes[id];
      if |dataCache[id].buffer.data| < 1 { return; }
      var ok := QueueVolume(id, dataCache[id].saveTime, stored);
      if !ok { return; }
      RemoveVolume(id);
      SetWatched(watched - {id});
    }
  }
}
