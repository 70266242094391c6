/**
 The ingest pipeline (pkg/handles.go) as a machine over atomic steps: messages are dispatched to workers by
 sensor id, decoded in order, and handled item by item beside the sensor's timeouts. The workers share the
 DataCache, the timeout map and the write queue; between any two accesses other workers may run.
*/
module IngestWorkers {
  import opened Wrappers
  import opened BigEndian
  import opened Routing
  import opened SensorBuffer

  // A decoded frame: sensor id, time and arc data.
  datatype Item = Item(id: nat, timestamp: int, data: seq<Byte>)

  // Where one worker stands inside handleDecodeResult or loadAndStoreTimeOutData. `stored` answers the write.
  datatype Pc =
    | Ready
    | Loading(item: Item)
    | Creating(item: Item)
    | Merging(item: Item)
    | Submitting(item: Item)
    | Updating(item: Item)
    | Rewriting(item: Item)
    | Watching(item: Item)
    | Expiring(id: nat, stored: bool)
    | Flushing(id: nat, stored: bool)
    | Removing(id: nat)
    | Unwatching(id: nat)

  // `jobs`, `results` and `timeouts` are the channels of one worker, `decoding` is the message its decoder
  // holds, `pending` the items of the current result that are still to be handled.
  datatype Worker = Worker(
    jobs: seq<seq<Item>>,
    decoding: Option<seq<Item>>,
    results: seq<seq<Item>>,
    pending: seq<Item>,
    timeouts: seq<nat>,
    pc: Pc)

  datatype Submitted = Submitted(id: nat, chunk: Chunk)

  datatype Entry = Entry(id: nat, event: Event)

  // `log` records the events in the order in which workers took them, `arrived` the dispatched items.
  datatype State = State(
    workers: seq<Worker>,
    volumes: map<nat, Volume>,
    watched: set<nat>,
    chunks: seq<Submitted>,
    log: seq<Entry>,
    arrived: seq<Item>)

  datatype Action =
    | Dispatch(key: nat, items: seq<Item>)
    | BeginDecode(w: nat)
    | EndDecode(w: nat)
    | Receive(w: nat)
    | TakeItem(w: nat, stored: bool)
    | TakeTimeout(w: nat, stored: bool)
    | Work(w: nat)
    | Expire(id: nat)

  // The worker of a sensor: id & (WorkCount - 1).
  function WorkerOf(s: State, id: nat): (w: nat)
    requires |s.workers| >= 1
    ensures w < |s.workers|
  {
    MaskInRange(id, |s.workers|);
    Mask(id, |s.workers|)
  }

  function SetWorker(s: State, w: nat, k: Worker): State
    requires w < |s.workers|
  {
    s.(workers := s.workers[w := k])
  }

  function SetPc(s: State, w: nat, pc: Pc): State
    requires w < |s.workers|
  {
    SetWorker(s, w, s.workers[w].(pc := pc))
  }

  function Merged(v: Volume, item: Item): Volume {
    v.(saveTime := Some(item.timestamp), lastTimestamp := Some(item.timestamp), buffer := v.buffer + item.data)
  }

  // ArcVolume.Update(afi.CreateTime): a new, empty buffer.
  function Updated(v: Volume): Volume {
    v.(minuteOf := Some(v.createTime), buffer := [])
  }

  // The sensor a worker is busy with.
  function IdOf(pc: Pc): Option<nat> {
    match pc
    case Ready => None
    case Expiring(id, _) => Some(id)
    case Flushing(id, _) => Some(id)
    case Removing(id) => Some(id)
    case Unwatching(id) => Some(id)
    case _ => Some(pc.item.id)
  }

  // The outcome of one access: where the worker stands then, the sensor's cache entry and its presence in
  // the timeout map, and the chunk submitted to the write queue, if any.
  datatype Access = Access(pc: Pc, volume: Option<Volume>, watched: bool, submitted: Option<Chunk>)

  /** The next access of a worker that is handling an item or a timeout. It concerns one sensor only. */
  function NextAccess(pc: Pc, volume: Option<Volume>, watched: bool): Option<Access> {
    match pc
    case Ready => None
    case Loading(item) => Some(Access(if volume.Some? then Merging(item) else Creating(item), volume, watched, None))
    case Creating(item) => Some(Access(Ready, Some(NewVolume(item.timestamp, item.data)), watched, None))
    case Merging(item) =>
      if volume.None? then None else Some(Access(Submitting(item), Some(Merged(volume.value, item)), watched, None))
    case Submitting(item) =>
      if volume.None? then None else
      Some(Access(Updating(item), volume, watched, Some(ChunkOf(volume.value, Some(item.timestamp)))))
    case Updating(item) =>
      if volume.None? then None else Some(Access(Rewriting(item), Some(Updated(volume.value)), watched, None))
    case Rewriting(item) =>
      if volume.None? then None else
      Some(Access(Watching(item), Some(volume.value.(buffer := volume.value.buffer + item.data)), watched, None))
    case Watching(_) => Some(Access(Ready, volume, true, None))
    case Expiring(id, stored) =>
      var idle := volume.None? || |volume.value.buffer| < 1;
      Some(Access(if idle then Ready else Flushing(id, stored), volume, watched, None))
    case Flushing(id, stored) =>
      if volume.None? then None else
      Some(Access(if stored then Removing(id) else Ready, volume, watched,
                  Some(ChunkOf(volume.value, volume.value.saveTime))))
    case Removing(id) => Some(Access(Unwatching(id), None, watched, None))
    case Unwatching(_) => Some(Access(Ready, volume, false, None))
  }

  function Cached(s: State, id: nat): Option<Volume> {
    if id in s.volumes then Some(s.volumes[id]) else None
  }

  // Writing an access back to the shared maps and the queue.
  function Share(s: State, id: nat, a: Access): State {
    s.(volumes := if a.volume.Some? then s.volumes[id := a.volume.value] else s.volumes - {id},
       watched := if a.watched then s.watched + {id} else s.watched - {id},
       chunks := s.chunks + (if a.submitted.Some? then [Submitted(id, a.submitted.value)] else []))
  }

  function WorkNext(s: State, w: nat): Option<State>
    requires w < |s.workers|
  {
    match IdOf(s.workers[w].pc)
    case None => None
    case Some(id) =>
      match NextAccess(s.workers[w].pc, Cached(s, id), id in s.watched)
      case None => None
      case Some(a) => Some(SetPc(Share(s, id, a), w, a.pc))
  }

  // Every frame inside a message carries the id of the message key.
  predicate AllOf(items: seq<Item>, id: nat) {
    forall i :: 0 <= i < |items| ==> items[i].id == id
  }

  predicate Next(s: State, a: Action, s': State)
    requires |s.workers| >= 1
  {
    match a
    case Dispatch(key, items) =>
      var w := WorkerOf(s, key);
      && AllOf(items, key)
      && s' == SetWorker(s, w, s.workers[w].(jobs := s.workers[w].jobs + [items])).(arrived := s.arrived + items)
    case BeginDecode(w) =>
      && w < |s.workers| && s.workers[w].decoding.None? && s.workers[w].jobs != []
      && s' == SetWorker(s, w, s.workers[w].(decoding := Some(s.workers[w].jobs[0]), jobs := s.workers[w].jobs[1..]))
    case EndDecode(w) =>
      && w < |s.workers| && s.workers[w].decoding.Some?
      && var k := s.workers[w];
         s' == SetWorker(s, w, k.(results := k.results + [k.decoding.value], decoding := None))
    case Receive(w) =>
      && w < |s.workers| && s.workers[w].pc.Ready? && s.workers[w].pending == [] && s.workers[w].results != []
      && s' == SetWorker(s, w, s.workers[w].(pending := s.workers[w].results[0], results := s.workers[w].results[1..]))
    case TakeItem(w, stored) =>
      && w < |s.workers| && s.workers[w].pc.Ready? && s.workers[w].pending != []
      && var item := s.workers[w].pending[0];
         s' == SetWorker(s, w, s.workers[w].(pending := s.workers[w].pending[1..], pc := Loading(item)))
               .(log := s.log + [Entry(item.id, FrameIn(item.timestamp, item.data, stored))])
    case TakeTimeout(w, stored) =>
      && w < |s.workers| && s.workers[w].pc.Ready? && s.workers[w].pending == [] && s.workers[w].timeouts != []
      && var id := s.workers[w].timeouts[0];
         s' == SetWorker(s, w, s.workers[w].(timeouts := s.workers[w].timeouts[1..], pc := Expiring(id, stored)))
               .(log := s.log + [Entry(id, TimeoutIn(stored))])
    case Work(w) => w < |s.workers| && WorkNext(s, w) == Some(s')
    // A walk sends an id that it read from the timeout map earlier; the entry may be gone by then.
    case Expire(id) =>
      var w := WorkerOf(s, id);
      s' == SetWorker(s, w, s.workers[w].(timeouts := s.workers[w].timeouts + [id]))
  }

  predicate Initial(s: State) {
    && |s.workers| >= 1
    && (forall w :: 0 <= w < |s.workers| ==> s.workers[w] == Worker([], None, [], [], [], Ready))
    && s.volumes == map[] && s.watched == {} && s.chunks == [] && s.log == [] && s.arrived == []
  }

  ghost predicate Steps(s: State, s': State)
    requires |s.workers| >= 1
  {
    exists a :: Next(s, a, s')
  }

  ghost predicate StepAt(run: seq<State>, i: nat)
    requires i + 1 < |run|
  {
    |run[i].workers| >= 1 && Steps(run[i], run[i + 1])
  }

  // All states a run visits, first to last.
  ghost predicate IsRun(run: seq<State>) {
    && |run| > 0 && Initial(run[0])
    && forall i :: 0 <= i < |run| - 1 ==> StepAt(run, i)
  }
}
