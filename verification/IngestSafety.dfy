/** Every interleaving of the ingest workers, seen from one sensor, is a sequential run of its events. */
module IngestSafety {
  import opened Wrappers
  import opened Routing
  import opened Sequences
  import opened SensorBuffer
  import opened SensorLife
  import opened IngestWorkers

  // ---------- one sensor's share of the shared state ----------

  function EventsOf(log: seq<Entry>, id: nat): seq<Event> {
    if log == [] then [] else
    EventsOf(log[..|log| - 1], id) + (if log[|log| - 1].id == id then [log[|log| - 1].event] else [])
  }

  function ChunksOf(chunks: seq<Submitted>, id: nat): seq<Chunk> {
    if chunks == [] then [] else
    ChunksOf(chunks[..|chunks| - 1], id) + (if chunks[|chunks| - 1].id == id then [chunks[|chunks| - 1].chunk] else [])
  }

  lemma EventsAppend(log: seq<Entry>, e: Entry, id: nat)
    ensures EventsOf(log + [e], id) == EventsOf(log, id) + (if e.id == id then [e.event] else [])
  {
    assert (log + [e])[..|log|] == log;
  }

  lemma ChunksAppend(chunks: seq<Submitted>, c: Submitted, id: nat)
    ensures ChunksOf(chunks + [c], id) == ChunksOf(chunks, id) + (if c.id == id then [c.chunk] else [])
  {
    assert (chunks + [c])[..|chunks|] == chunks;
  }

  function View(s: State, id: nat): Sensor {
    Sensor(Cached(s, id), id in s.watched, ChunksOf(s.chunks, id))
  }

  // Where the sensor's worker stands with this sensor; Ready when it is busy with another one.
  function PcOn(s: State, id: nat): Pc
    requires |s.workers| >= 1
  {
    var pc := s.workers[WorkerOf(s, id)].pc;
    if IdOf(pc) == Some(id) then pc else Ready
  }

  // ---------- what a half-handled event will still do to its sensor ----------

  function AfterRewriting(s: Sensor, item: Item): Sensor {
    if s.volume.None? then s
    else s.(volume := Some(s.volume.value.(buffer := s.volume.value.buffer + item.data)), watched := true)
  }

  function AfterUpdating(s: Sensor, item: Item): Sensor {
    if s.volume.None? then s else AfterRewriting(s.(volume := Some(Updated(s.volume.value))), item)
  }

  function AfterSubmitting(s: Sensor, item: Item): Sensor {
    if s.volume.None? then s
    else AfterUpdating(s.(chunks := s.chunks + [ChunkOf(s.volume.value, Some(item.timestamp))]), item)
  }

  function AfterMerging(s: Sensor, item: Item): Sensor {
    if s.volume.None? then s else AfterSubmitting(s.(volume := Some(Merged(s.volume.value, item))), item)
  }

  function Complete(pc: Pc, s: Sensor): Sensor {
    match pc
    case Ready => s
    case Loading(item) => Apply(s, FrameIn(item.timestamp, item.data, true))
    case Creating(item) => s.(volume := Some(NewVolume(item.timestamp, item.data)))
    case Merging(item) => AfterMerging(s, item)
    case Submitting(item) => AfterSubmitting(s, item)
    case Updating(item) => AfterUpdating(s, item)
    case Rewriting(item) => AfterRewriting(s, item)
    case Watching(item) => s.(watched := true)
    case Expiring(_, stored) => Apply(s, TimeoutIn(stored))
    case Flushing(_, stored) => Apply(s, TimeoutIn(stored))
    case Removing(_) => Sensor(None, false, s.chunks)
    case Unwatching(_) => s.(watched := false)
  }

  // A program counter that presupposes a cached volume.
  predicate PcOk(pc: Pc, s: Sensor) {
    && (pc.Merging? || pc.Submitting? || pc.Updating? || pc.Rewriting? ==> s.volume.Some?)
    && (pc.Flushing? ==> s.volume.Some? && |s.volume.value.buffer| >= 1)
    && (pc.Creating? ==> s.volume.None?)
    && (pc.Unwatching? ==> s.volume.None?)
  }

  // ---------- the items on their way ----------

  function Flatten(xss: seq<seq<Item>>): seq<Item> {
    if xss == [] then [] else xss[0] + Flatten(xss[1..])
  }

  lemma {:induction false} FlattenAppend(xss: seq<seq<Item>>, xs: seq<Item>)
    ensures Flatten(xss + [xs]) == Flatten(xss) + xs
  {
    if xss == [] {
      assert [xs][1..] == [];
    } else {
      FlattenAppend(xss[1..], xs);
      assert (xss + [xs])[1..] == xss[1..] + [xs];
    }
  }

  function Backlog(k: Worker): seq<Item> {
    k.pending + Flatten(k.results) + (if k.decoding.Some? then k.decoding.value else []) + Flatten(k.jobs)
  }

  // The items workers have taken, in order.
  function Taken(log: seq<Entry>): seq<Item> {
    if log == [] then [] else
    var e := log[|log| - 1];
    Taken(log[..|log| - 1]) + (if e.event.FrameIn? then [Item(e.id, e.event.timestamp, e.event.data)] else [])
  }

  lemma TakenAppend(log: seq<Entry>, e: Entry)
    ensures Taken(log + [e])
            == Taken(log) + (if e.event.FrameIn? then [Item(e.id, e.event.timestamp, e.event.data)] else [])
  {
    assert (log + [e])[..|log|] == log;
  }

  function Of(id: nat): Item -> bool {
    (item: Item) => item.id == id
  }

  // ---------- the invariant ----------

  predicate OwnItems(s: State, w: nat)
    requires |s.workers| >= 1 && w < |s.workers|
  {
    && (forall i :: 0 <= i < |Backlog(s.workers[w])| ==> WorkerOf(s, Backlog(s.workers[w])[i].id) == w)
    && (forall i :: 0 <= i < |s.workers[w].timeouts| ==> WorkerOf(s, s.workers[w].timeouts[i]) == w)
    && (IdOf(s.workers[w].pc).Some? ==> WorkerOf(s, IdOf(s.workers[w].pc).value) == w)
  }

  predicate RoutedOk(s: State)
    requires |s.workers| >= 1
  {
    forall w :: 0 <= w < |s.workers| ==> OwnItems(s, w)
  }

  predicate SensorOk(s: State, id: nat)
    requires |s.workers| >= 1
  {
    && PcOk(PcOn(s, id), View(s, id))
    && Complete(PcOn(s, id), View(s, id)) == Run(UNKNOWN, EventsOf(s.log, id))
  }

  predicate OrderOk(s: State, id: nat)
    requires |s.workers| >= 1
  {
    Filter(Taken(s.log), Of(id)) + Filter(Backlog(s.workers[WorkerOf(s, id)]), Of(id)) == Filter(s.arrived, Of(id))
  }

  ghost predicate Inv(s: State) {
    && |s.workers| >= 1
    && RoutedOk(s)
    && (forall id: nat :: SensorOk(s, id))
    && (forall id: nat :: OrderOk(s, id))
  }

  // ---------- a worker's step, seen from its own sensor and from the others ----------

  function Chunks(c: Option<Chunk>): seq<Chunk> {
    if c.Some? then [c.value] else []
  }

  // An access brings the sensor one step closer to the completed event.
  lemma AccessCompletes(pc: Pc, v: Sensor)
    requires PcOk(pc, v) && NextAccess(pc, v.volume, v.watched).Some?
    ensures var a := NextAccess(pc, v.volume, v.watched).value;
            var v' := Sensor(a.volume, a.watched, v.chunks + Chunks(a.submitted));
            PcOk(a.pc, v') && Complete(a.pc, v') == Complete(pc, v)
  {
    assert v.chunks + [] == v.chunks;
    if pc.Loading? || pc.Merging? || pc.Submitting? || pc.Updating? {
      assert [] + pc.item.data == pc.item.data;
    }
  }

  lemma ShareView(s: State, own: nat, a: Access, id: nat)
    ensures View(Share(s, own, a), id)
            == if id == own then Sensor(a.volume, a.watched, ChunksOf(s.chunks, id) + Chunks(a.submitted))
               else View(s, id)
  {
    if a.submitted.Some? {
      ChunksAppend(s.chunks, Submitted(own, a.submitted.value), id);
    } else {
      assert s.chunks + [] == s.chunks;
    }
  }

  // The step's own sensor.
  lemma OwnSensor(s: State, w: nat, s': State, id: nat)
    requires |s.workers| >= 1 && w < |s.workers| && WorkNext(s, w) == Some(s')
    requires IdOf(s.workers[w].pc) == Some(id) && WorkerOf(s, id) == w && SensorOk(s, id)
    ensures |s'.workers| == |s.workers| && SensorOk(s', id)
  {
    var pc := s.workers[w].pc;
    var a := NextAccess(pc, Cached(s, id), id in s.watched).value;
    ShareView(s, id, a, id);
    AccessCompletes(pc, View(s, id));
    AccessStays(pc, View(s, id));
    assert View(s', id) == View(Share(s, id, a), id);
    assert PcOn(s', id) == a.pc;
  }

  lemma AccessStays(pc: Pc, v: Sensor)
    requires NextAccess(pc, v.volume, v.watched).Some?
    ensures var pc' := NextAccess(pc, v.volume, v.watched).value.pc; pc'.Ready? || IdOf(pc') == IdOf(pc)
  {
  }

  // Every other sensor.
  lemma OtherSensor(s: State, w: nat, s': State, id: nat)
    requires |s.workers| >= 1 && w < |s.workers| && WorkNext(s, w) == Some(s')
    requires IdOf(s.workers[w].pc) != Some(id) && SensorOk(s, id)
    ensures |s'.workers| == |s.workers| && SensorOk(s', id)
  {
    var own := IdOf(s.workers[w].pc).value;
    var a := NextAccess(s.workers[w].pc, Cached(s, own), own in s.watched).value;
    ShareView(s, own, a, id);
    AccessStays(s.workers[w].pc, View(s, own));
    assert View(s', id) == View(Share(s, own, a), id);
    assert PcOn(s', id) == PcOn(s, id);
  }

  // ---------- channel steps ----------

  // A step that only moves items and timeouts through the channels of one worker.
  predicate OnlyChannels(s: State, w: nat, s': State)
    requires w < |s.workers|
  {
    && |s'.workers| == |s.workers|
    && s'.workers == s.workers[w := s'.workers[w]] && s'.workers[w].pc == s.workers[w].pc
    && s'.volumes == s.volumes && s'.watched == s.watched && s'.chunks == s.chunks && s'.log == s.log
  }

  lemma ChannelSensor(s: State, w: nat, s': State, id: nat)
    requires |s.workers| >= 1 && w < |s.workers| && OnlyChannels(s, w, s') && SensorOk(s, id)
    ensures SensorOk(s', id)
  {
    assert View(s', id) == View(s, id) && PcOn(s', id) == PcOn(s, id);
  }

  // The program counter with which a worker begins an event.
  function Begun(e: Entry): Pc {
    match e.event
    case FrameIn(timestamp, data, _) => Loading(Item(e.id, timestamp, data))
    case TimeoutIn(stored) => Expiring(e.id, stored)
  }

  // A worker begins an event, seen from the event's sensor and from the others.
  lemma TakeOwnSensor(s: State, w: nat, s': State, e: Entry)
    requires |s.workers| >= 1 && w < |s.workers| && SensorOk(s, e.id) && s.workers[w].pc.Ready?
    requires |s'.workers| == |s.workers| && s'.workers[w].pc == Begun(e) && WorkerOf(s, e.id) == w
    requires s'.volumes == s.volumes && s'.watched == s.watched && s'.chunks == s.chunks && s'.log == s.log + [e]
    ensures SensorOk(s', e.id)
  {
    assert View(s', e.id) == View(s, e.id) && PcOn(s, e.id) == Ready && PcOn(s', e.id) == Begun(e);
    EventsAppend(s.log, e, e.id);
    RunAppend(UNKNOWN, EventsOf(s.log, e.id), e.event);
    assert Complete(Begun(e), View(s, e.id)) == Apply(View(s, e.id), e.event);
  }

  lemma TakeOtherSensor(s: State, w: nat, s': State, e: Entry, id: nat)
    requires |s.workers| >= 1 && w < |s.workers| && SensorOk(s, id) && s.workers[w].pc.Ready? && id != e.id
    requires |s'.workers| == |s.workers| && s'.workers == s.workers[w := s'.workers[w]] && s'.workers[w].pc == Begun(e)
    requires s'.volumes == s.volumes && s'.watched == s.watched && s'.chunks == s.chunks && s'.log == s.log + [e]
    ensures SensorOk(s', id)
  {
    assert View(s', id) == View(s, id) && PcOn(s', id) == PcOn(s, id);
    EventsAppend(s.log, e, id);
    assert EventsOf(s.log, id) + [] == EventsOf(s.log, id);
  }

  lemma TakeSensor(s: State, w: nat, s': State, e: Entry, id: nat)
    requires |s.workers| >= 1 && w < |s.workers| && SensorOk(s, id) && s.workers[w].pc.Ready? && WorkerOf(s, e.id) == w
    requires |s'.workers| == |s.workers| && s'.workers == s.workers[w := s'.workers[w]] && s'.workers[w].pc == Begun(e)
    requires s'.volumes == s.volumes && s'.watched == s.watched && s'.chunks == s.chunks && s'.log == s.log + [e]
    ensures SensorOk(s', id)
  {
    if id == e.id { TakeOwnSensor(s, w, s', e); } else { TakeOtherSensor(s, w, s', e, id); }
  }

  // ---------- items keep their order ----------

  lemma FlattenHead(xss: seq<seq<Item>>)
    requires xss != []
    ensures Flatten(xss) == xss[0] + Flatten(xss[1..])
  {
  }

  lemma BacklogDispatch(k: Worker, items: seq<Item>)
    ensures Backlog(k.(jobs := k.jobs + [items])) == Backlog(k) + items
  {
    FlattenAppend(k.jobs, items);
  }

  lemma BacklogBeginDecode(k: Worker)
    requires k.decoding.None? && k.jobs != []
    ensures Backlog(k.(decoding := Some(k.jobs[0]), jobs := k.jobs[1..])) == Backlog(k)
  {
    FlattenHead(k.jobs);
  }

  lemma BacklogEndDecode(k: Worker)
    requires k.decoding.Some?
    ensures Backlog(k.(results := k.results + [k.decoding.value], decoding := None)) == Backlog(k)
  {
    FlattenAppend(k.results, k.decoding.value);
  }

  lemma BacklogReceive(k: Worker)
    requires k.pending == [] && k.results != []
    ensures Backlog(k.(pending := k.results[0], results := k.results[1..])) == Backlog(k)
  {
    FlattenHead(k.results);
  }

  lemma BacklogTake(k: Worker, pc: Pc)
    requires k.pending != []
    ensures Backlog(k) == [k.pending[0]] + Backlog(k.(pending := k.pending[1..], pc := pc))
  {
    assert k.pending == [k.pending[0]] + k.pending[1..];
  }

  // ---------- every step keeps the invariant ----------

  // Routing of a step that changes one worker.
  lemma RouteMove(s: State, w: nat, s': State)
    requires |s.workers| >= 1 && RoutedOk(s) && w < |s.workers|
    requires |s'.workers| == |s.workers| && s'.workers == s.workers[w := s'.workers[w]] && OwnItems(s', w)
    ensures RoutedOk(s')
  {
    forall v | 0 <= v < |s'.workers| ensures OwnItems(s', v) {
      assert OwnItems(s, v);
    }
  }

  lemma OrderFrame(s: State, w: nat, s': State)
    requires |s.workers| >= 1 && w < |s.workers| && forall id: nat :: OrderOk(s, id)
    requires |s'.workers| == |s.workers| && s'.workers == s.workers[w := s'.workers[w]]
    requires Backlog(s'.workers[w]) == Backlog(s.workers[w]) && s'.log == s.log && s'.arrived == s.arrived
    ensures forall id: nat :: OrderOk(s', id)
  {
    forall id: nat ensures OrderOk(s', id) {
      assert OrderOk(s, id);
    }
  }

  lemma WorkKeeps(s: State, w: nat, s': State)
    requires Inv(s) && w < |s.workers| && WorkNext(s, w) == Some(s')
    ensures Inv(s')
  {
    assert OwnItems(s, w);
    forall id: nat ensures SensorOk(s', id) {
      assert SensorOk(s, id);
      if IdOf(s.workers[w].pc) == Some(id) { OwnSensor(s, w, s', id); } else { OtherSensor(s, w, s', id); }
    }
    var own := IdOf(s.workers[w].pc).value;
    AccessStays(s.workers[w].pc, View(s, own));
    assert Backlog(s'.workers[w]) == Backlog(s.workers[w]);
    RouteMove(s, w, s');
    OrderFrame(s, w, s');
  }

  lemma ChannelKeeps(s: State, w: nat, s': State)
    requires Inv(s) && w < |s.workers| && OnlyChannels(s, w, s') && s'.arrived == s.arrived
    requires Backlog(s'.workers[w]) == Backlog(s.workers[w])
    requires forall i :: 0 <= i < |s'.workers[w].timeouts| ==> WorkerOf(s, s'.workers[w].timeouts[i]) == w
    ensures Inv(s')
  {
    assert OwnItems(s, w);
    forall id: nat ensures SensorOk(s', id) {
      ChannelSensor(s, w, s', id);
    }
    RouteMove(s, w, s');
    OrderFrame(s, w, s');
  }

  lemma AllFilter(items: seq<Item>, key: nat, id: nat)
    requires AllOf(items, key)
    ensures Filter(items, Of(id)) == if id == key then items else []
  {
    if items != [] {
      AllFilter(items[..|items| - 1], key, id);
    }
  }

  lemma DispatchKeeps(s: State, key: nat, items: seq<Item>, s': State)
    requires Inv(s) && Next(s, Dispatch(key, items), s')
    ensures Inv(s')
  {
    var w := WorkerOf(s, key);
    var k := s.workers[w];
    BacklogDispatch(k, items);
    assert OwnItems(s, w);
    forall id: nat ensures SensorOk(s', id) {
      ChannelSensor(s, w, s', id);
    }
    assert OwnItems(s', w);
    RouteMove(s, w, s');
    forall id: nat ensures OrderOk(s', id) {
      assert OrderOk(s, id);
      DispatchOrder(s, key, items, s', id);
    }
  }

  lemma DispatchOrder(s: State, key: nat, items: seq<Item>, s': State, id: nat)
    requires |s.workers| >= 1 && OrderOk(s, id) && AllOf(items, key)
    requires |s'.workers| == |s.workers| && s'.log == s.log && s'.arrived == s.arrived + items
    requires var w := WorkerOf(s, key);
             s'.workers == s.workers[w := s'.workers[w]] && Backlog(s'.workers[w]) == Backlog(s.workers[w]) + items
    ensures OrderOk(s', id)
  {
    var w := WorkerOf(s, key);
    var f := Of(id);
    FilterConcat(s.arrived, items, f);
    FilterConcat(Backlog(s.workers[w]), items, f);
    if id == key {
      Reassociate(Filter(Taken(s.log), f), Filter(Backlog(s.workers[w]), f), Filter(items, f));
    } else {
      AllFilter(items, key, id);
      NothingAdded(Filter(s.arrived, f));
      NothingAdded(Filter(Backlog(s.workers[w]), f));
    }
  }

  lemma Reassociate(a: seq<Item>, b: seq<Item>, c: seq<Item>)
    ensures a + (b + c) == (a + b) + c
  {
  }

  lemma NothingAdded<T>(a: seq<T>)
    ensures a + [] == a
  {
  }

  lemma TakeItemKeeps(s: State, w: nat, stored: bool, s': State)
    requires Inv(s) && Next(s, TakeItem(w, stored), s')
    ensures Inv(s')
  {
    var item := s.workers[w].pending[0];
    var e := Entry(item.id, FrameIn(item.timestamp, item.data, stored));
    BacklogTake(s.workers[w], Loading(item));
    assert OwnItems(s, w);
    assert Backlog(s.workers[w])[0] == item;
    forall id: nat ensures SensorOk(s', id) {
      assert SensorOk(s, id);
      TakeSensor(s, w, s', e, id);
    }
    forall i | 0 <= i < |Backlog(s'.workers[w])| ensures WorkerOf(s', Backlog(s'.workers[w])[i].id) == w {
      assert Backlog(s.workers[w])[i + 1] == Backlog(s'.workers[w])[i];
    }
    RouteMove(s, w, s');
    forall id: nat ensures OrderOk(s', id) {
      assert OrderOk(s, id);
      TakeOrder(s, w, item, e, s', id);
    }
  }

  // Moving an item from the front of one list to the end of another keeps what they select together.
  lemma TakeFilters(taken: seq<Item>, item: Item, after: seq<Item>, f: Item -> bool)
    ensures Filter(taken + [item], f) + Filter(after, f) == Filter(taken, f) + Filter([item] + after, f)
  {
    FilterAppend(taken, f, item);
    FilterConcat([item], after, f);
    FilterOne(f, item);
    if f(item) {
      Reassociate(Filter(taken, f), [item], Filter(after, f));
    } else {
      NothingAdded(Filter(taken, f));
      NothingBefore(Filter(after, f));
    }
  }

  lemma TakeOrder(s: State, w: nat, item: Item, e: Entry, s': State, id: nat)
    requires |s.workers| >= 1 && w < |s.workers| && OrderOk(s, id) && WorkerOf(s, item.id) == w
    requires e.id == item.id && e.event.FrameIn? && item == Item(e.id, e.event.timestamp, e.event.data)
    requires |s'.workers| == |s.workers| && s'.log == s.log + [e] && s'.arrived == s.arrived
    requires s'.workers == s.workers[w := s'.workers[w]] && Backlog(s.workers[w]) == [item] + Backlog(s'.workers[w])
    ensures OrderOk(s', id)
  {
    TakenAppend(s.log, e);
    if WorkerOf(s, id) == w {
      TakeFilters(Taken(s.log), item, Backlog(s'.workers[w]), Of(id));
    } else {
      FilterAppend(Taken(s.log), Of(id), item);
      NothingAdded(Filter(Taken(s.log), Of(id)));
    }
  }

  lemma NothingBefore(a: seq<Item>)
    ensures [] + a == a
  {
  }

  lemma TakeTimeoutKeeps(s: State, w: nat, stored: bool, s': State)
    requires Inv(s) && Next(s, TakeTimeout(w, stored), s')
    ensures Inv(s')
  {
    var t := s.workers[w].timeouts[0];
    var e := Entry(t, TimeoutIn(stored));
    assert OwnItems(s, w);
    assert Backlog(s'.workers[w]) == Backlog(s.workers[w]);
    forall id: nat ensures SensorOk(s', id) {
      assert SensorOk(s, id);
      TakeSensor(s, w, s', e, id);
    }
    RouteMove(s, w, s');
    TakenAppend(s.log, e);
    assert Taken(s'.log) == Taken(s.log) + [] == Taken(s.log);
    forall id: nat ensures OrderOk(s', id) {
      assert OrderOk(s, id);
    }
  }

  lemma NextKeeps(s: State, a: Action, s': State)
    requires Inv(s) && Next(s, a, s')
    ensures Inv(s')
  {
    match a
    case Dispatch(key, items) => DispatchKeeps(s, key, items, s');
    case BeginDecode(w) =>
      assert OwnItems(s, w);
      BacklogBeginDecode(s.workers[w]);
      ChannelKeeps(s, w, s');
    case EndDecode(w) =>
      assert OwnItems(s, w);
      BacklogEndDecode(s.workers[w]);
      ChannelKeeps(s, w, s');
    case Receive(w) =>
      assert OwnItems(s, w);
      BacklogReceive(s.workers[w]);
      ChannelKeeps(s, w, s');
    case TakeItem(w, stored) => TakeItemKeeps(s, w, stored, s');
    case TakeTimeout(w, stored) => TakeTimeoutKeeps(s, w, stored, s');
    case Work(w) => WorkKeeps(s, w, s');
    case Expire(id) =>
      var w := WorkerOf(s, id);
      assert OwnItems(s, w);
      assert Backlog(s'.workers[w]) == Backlog(s.workers[w]);
      ChannelKeeps(s, w, s');
  }

  lemma InitialKeeps(s: State)
    requires Initial(s)
    ensures Inv(s)
  {
    forall w | 0 <= w < |s.workers| ensures OwnItems(s, w) {
    }
    forall id: nat ensures SensorOk(s, id) && OrderOk(s, id) {
      assert PcOn(s, id) == Ready && View(s, id) == UNKNOWN;
    }
  }

  lemma {:induction false} RunKeeps(run: seq<State>, i: nat)
    requires IsRun(run) && i < |run|
    ensures Inv(run[i])
  {
    if i == 0 {
      InitialKeeps(run[0]);
    } else {
      RunKeeps(run, i - 1);
      assert StepAt(run, i - 1);
      var a :| Next(run[i - 1], a, run[i]);
      NextKeeps(run[i - 1], a, run[i]);
    }
  }

  // ---------- the theorems ----------

  /** Whatever the interleaving, a sensor whose worker is not in the middle of one of its events has exactly
      the cache entry, the watch flag and the queued chunks of a sequential run of its own events. */
  lemma SensorRunsAlone(run: seq<State>, i: nat, id: nat)
    requires IsRun(run) && i < |run|
    ensures |run[i].workers| >= 1
    ensures PcOn(run[i], id).Ready? ==> View(run[i], id) == Run(UNKNOWN, EventsOf(run[i].log, id))
  {
    RunKeeps(run, i);
    assert SensorOk(run[i], id);
  }

  /** So the chunks the shared queue got for a sensor that only had frames are its consecutive pairs. */
  lemma SensorQueuesPairs(run: seq<State>, i: nat, id: nat)
    requires IsRun(run) && i < |run| && |run[i].workers| >= 1 && PcOn(run[i], id).Ready?
    requires AllFrames(EventsOf(run[i].log, id)) && EventsOf(run[i].log, id) != []
    ensures SessionState(View(run[i], id), [], false, EventsOf(run[i].log, id))
  {
    SensorRunsAlone(run, i, id);
    Session(UNKNOWN, EventsOf(run[i].log, id));
  }

  /** With a power of two of workers, a sensor's worker is the remainder of its id; with any number, it is an
      existing one that depends on the id alone. */
  lemma WorkersShareSensors(s: State, id: nat)
    requires |s.workers| >= 1
    ensures WorkerOf(s, id) < |s.workers|
    ensures IsPow2(|s.workers|) ==> WorkerOf(s, id) == id % |s.workers|
  {
    if IsPow2(|s.workers|) {
      MaskIsRemainder(|s.workers|);
    }
  }

  /** No frame is lost or overtaken on its way: the dispatched items of a sensor are, in order, those its
      worker has taken and those still in its channels. */
  lemma FramesKeepTheirOrder(run: seq<State>, i: nat, id: nat)
    requires IsRun(run) && i < |run|
    ensures |run[i].workers| >= 1
    ensures Filter(Taken(run[i].log), Of(id)) + Filter(Backlog(run[i].workers[WorkerOf(run[i], id)]), Of(id))
            == Filter(run[i].arrived, Of(id))
  {
    RunKeeps(run, i);
    assert OrderOk(run[i], id);
  }

  /** So, whatever the interleaving and however often the sensor timed out, its state has the closed form of its
      whole life: pairs of consecutive frames session by session, and the last frame for each timeout. */
  lemma SensorLivesItsLife(run: seq<State>, i: nat, id: nat)
    requires IsRun(run) && i < |run| && |run[i].workers| >= 1 && PcOn(run[i], id).Ready?
    ensures var es := EventsOf(run[i].log, id);
            View(run[i], id) == SensorOf(es, Since(es, |es|, false), Parts(es, |es|, false))
  {
    var es := EventsOf(run[i].log, id);
    SensorRunsAlone(run, i, id);
    LifeIsRun(es, |es|);
    assert es[..|es|] == es;
    WholeLife(es, |es|, false);
  }

  /** And once everything dispatched for it has been handled, the frames of that life are the dispatched ones. */
  lemma DispatchedFramesAreLived(run: seq<State>, i: nat, id: nat)
    requires IsRun(run) && i < |run| && |run[i].workers| >= 1
    requires Filter(Backlog(run[i].workers[WorkerOf(run[i], id)]), Of(id)) == []
    ensures ItemsIn(id, EventsOf(run[i].log, id)) == Filter(run[i].arrived, Of(id))
  {
    FramesKeepTheirOrder(run, i, id);
    NothingAdded(Filter(Taken(run[i].log), Of(id)));
    TakenItems(run[i].log, id);
  }

  // The frames of a sensor's events, as items.
  function FrameItems(id: nat, es: seq<Event>): seq<Item>
    requires AllFrames(es)
  {
    seq(|es|, k requires 0 <= k < |es| => Item(id, es[k].timestamp, es[k].data))
  }

  // The frames among a sensor's events, as items.
  function ItemsIn(id: nat, es: seq<Event>): seq<Item> {
    if es == [] then []
    else
      var e := es[|es| - 1];
      ItemsIn(id, es[..|es| - 1]) + (if e.FrameIn? then [Item(id, e.timestamp, e.data)] else [])
  }

  lemma ItemsAppend(id: nat, es: seq<Event>, e: Event)
    ensures ItemsIn(id, es + [e]) == ItemsIn(id, es) + (if e.FrameIn? then [Item(id, e.timestamp, e.data)] else [])
  {
    assert (es + [e])[..|es|] == es;
  }

  lemma {:induction false} TakenItems(log: seq<Entry>, id: nat)
    ensures ItemsIn(id, EventsOf(log, id)) == Filter(Taken(log), Of(id))
  {
    if log != [] {
      var front, e := log[..|log| - 1], log[|log| - 1];
      assert log == front + [e];
      EventsAppend(front, e, id);
      TakenAppend(front, e);
      TakenItems(front, id);
      ItemsAppend(id, EventsOf(front, id), e.event);
      NothingAdded(EventsOf(front, id));
      if e.event.FrameIn? {
        FilterAppend(Taken(front), Of(id), Item(e.id, e.event.timestamp, e.event.data));
      } else {
        NothingAdded(Taken(front));
      }
    }
  }

  lemma {:induction false} ItemsOfFrames(id: nat, es: seq<Event>)
    requires AllFrames(es)
    ensures ItemsIn(id, es) == FrameItems(id, es)
  {
    if es != [] {
      ItemsOfFrames(id, es[..|es| - 1]);
    }
  }

  // The k-th chunk of a sensor that was sent these frames.
  function PairOfItems(items: seq<Item>, k: nat): Chunk
    requires k + 1 < |items|
  {
    Chunk(items[0].timestamp, Some(items[k + 1].timestamp), if k == 0 then None else Some(items[0].timestamp),
          items[k].data + items[k + 1].data)
  }

  /** End to end: once everything dispatched for a sensor has been handled, and it has not timed out, the write
      queue has got the consecutive pairs of the dispatched frames, in order, and nothing else, and the last
      frame is in the cache. */
  lemma DispatchedPairsAreQueued(run: seq<State>, i: nat, id: nat)
    requires IsRun(run) && i < |run| && |run[i].workers| >= 1 && PcOn(run[i], id).Ready?
    requires Filter(Backlog(run[i].workers[WorkerOf(run[i], id)]), Of(id)) == []
    requires AllFrames(EventsOf(run[i].log, id))
    ensures var items, chunks := Filter(run[i].arrived, Of(id)), ChunksOf(run[i].chunks, id);
            if items == [] then chunks == [] && Cached(run[i], id).None?
            else && |chunks| == |items| - 1
                 && (forall k :: 0 <= k < |items| - 1 ==> chunks[k] == PairOfItems(items, k))
                 && Cached(run[i], id).Some? && Cached(run[i], id).value.buffer == items[|items| - 1].data
  {
    var events := EventsOf(run[i].log, id);
    FramesKeepTheirOrder(run, i, id);
    NothingAdded(Filter(Taken(run[i].log), Of(id)));
    TakenItems(run[i].log, id);
    ItemsOfFrames(id, events);
    if events == [] {
      SensorRunsAlone(run, i, id);
    } else {
      SensorQueuesPairs(run, i, id);
      PairsOfFrames(View(run[i], id), id, events);
    }
  }

  lemma PairsOfFrames(s: Sensor, id: nat, es: seq<Event>)
    requires AllFrames(es) && es != [] && SessionState(s, [], false, es)
    ensures var items := FrameItems(id, es);
            && |s.chunks| == |items| - 1
            && (forall k :: 0 <= k < |items| - 1 ==> s.chunks[k] == PairOfItems(items, k))
            && s.volume.Some? && s.volume.value.buffer == items[|items| - 1].data
  {
    forall k | 0 <= k < |es| - 1
      ensures s.chunks[k] == PairOfItems(FrameItems(id, es), k)
    {
      assert s.chunks[0 + k] == PairChunk(es, k);
    }
  }

  /** A worker that is handling a sensor's event can always go on: the volume it works on is still there. */
  lemma WorkerNeverLosesItsVolume(run: seq<State>, i: nat, w: nat)
    requires IsRun(run) && i < |run| && w < |run[i].workers| && !run[i].workers[w].pc.Ready?
    ensures WorkNext(run[i], w).Some?
  {
    RunKeeps(run, i);
    var s := run[i];
    assert OwnItems(s, w);
    var own := IdOf(s.workers[w].pc).value;
    assert SensorOk(s, own) && PcOn(s, own) == s.workers[w].pc;
  }
}
