/** The workers finish what they are given: each message and each timeout costs a bounded number of steps, and a worker
    stops only when it has nothing left. */
module IngestProgress {
  import opened Wrappers
  import opened Sequences
  import opened SensorBuffer
  import opened SensorLife
  import opened IngestWorkers
  import opened IngestSafety

  // How many steps a worker still has to take at most for the event at hand.
  function StepsLeft(pc: Pc): nat {
    match pc
    case Ready => 0
    case Loading(_) => 6
    case Creating(_) => 1
    case Merging(_) => 5
    case Submitting(_) => 4
    case Updating(_) => 3
    case Rewriting(_) => 2
    case Watching(_) => 1
    case Expiring(_, _) => 4
    case Flushing(_, _) => 3
    case Removing(_) => 2
    case Unwatching(_) => 1
  }

  // And for everything it has been sent: three for each message, seven for each frame, five for each timeout.
  function Effort(k: Worker): nat {
    3 * |k.jobs| + (if k.decoding.Some? then 2 else 0) + |k.results| + 7 * |Backlog(k)| + 5 * |k.timeouts|
    + StepsLeft(k.pc)
  }

  function Efforts(ws: seq<Worker>): nat {
    if ws == [] then 0 else Efforts(ws[..|ws| - 1]) + Effort(ws[|ws| - 1])
  }

  lemma {:induction false} EffortsUpdate(ws: seq<Worker>, w: nat, k: Worker)
    requires w < |ws|
    ensures Efforts(ws[w := k]) == Efforts(ws) - Effort(ws[w]) + Effort(k)
  {
    var last := |ws| - 1;
    if w == last {
      assert ws[w := k][..last] == ws[..last];
    } else {
      EffortsUpdate(ws[..last], w, k);
      assert ws[w := k][..last] == ws[..last][w := k];
    }
  }

  lemma {:induction false} IdleEffort(ws: seq<Worker>)
    requires forall w :: 0 <= w < |ws| ==> ws[w] == Worker([], None, [], [], [], Ready)
    ensures Efforts(ws) == 0
  {
    if ws != [] {
      IdleEffort(ws[..|ws| - 1]);
    }
  }

  // The steps of the workers; the others are the arrival of a message and the sending of a timeout.
  predicate IsWork(a: Action) {
    !a.Dispatch? && !a.Expire?
  }

  // What an arrival adds.
  function Added(a: Action): nat {
    match a
    case Dispatch(_, items) => 7 * |items| + 3
    case Expire(_) => 5
    case _ => 0
  }

  // The one worker a step concerns.
  function WorkerAt(s: State, a: Action): nat
    requires |s.workers| >= 1
  {
    match a
    case Dispatch(key, _) => WorkerOf(s, key)
    case Expire(id) => WorkerOf(s, id)
    case _ => a.w
  }

  lemma ChannelEffort(s: State, a: Action, s': State)
    requires |s.workers| >= 1 && Next(s, a, s') && (a.BeginDecode? || a.EndDecode? || a.Receive?)
    ensures |s'.workers| == |s.workers| && a.w < |s.workers| && s'.workers == s.workers[a.w := s'.workers[a.w]]
    ensures Effort(s'.workers[a.w]) < Effort(s.workers[a.w])
  {
    var k := s.workers[a.w];
    match a
    case BeginDecode(_) => BacklogBeginDecode(k);
    case EndDecode(_) => BacklogEndDecode(k);
    case Receive(_) => BacklogReceive(k);
  }

  lemma TakeEffort(s: State, a: Action, s': State)
    requires |s.workers| >= 1 && Next(s, a, s') && (a.TakeItem? || a.TakeTimeout?)
    ensures |s'.workers| == |s.workers| && a.w < |s.workers| && s'.workers == s.workers[a.w := s'.workers[a.w]]
    ensures Effort(s'.workers[a.w]) < Effort(s.workers[a.w])
  {
    var k := s.workers[a.w];
    if a.TakeItem? {
      BacklogTake(k, s'.workers[a.w].pc);
    } else {
      assert Backlog(s'.workers[a.w]) == Backlog(k);
    }
  }

  lemma AccessEffort(pc: Pc, volume: Option<Volume>, watched: bool)
    requires NextAccess(pc, volume, watched).Some?
    ensures StepsLeft(NextAccess(pc, volume, watched).value.pc) < StepsLeft(pc)
  {
  }

  lemma WorkEffort(s: State, w: nat, s': State)
    requires w < |s.workers| && WorkNext(s, w) == Some(s')
    ensures |s'.workers| == |s.workers| && s'.workers == s.workers[w := s'.workers[w]]
    ensures Effort(s'.workers[w]) < Effort(s.workers[w])
  {
    var id := IdOf(s.workers[w].pc).value;
    AccessEffort(s.workers[w].pc, Cached(s, id), id in s.watched);
    assert Backlog(s'.workers[w]) == Backlog(s.workers[w]);
  }

  lemma ArrivalEffort(s: State, a: Action, s': State)
    requires |s.workers| >= 1 && Next(s, a, s') && !IsWork(a)
    ensures var w := WorkerAt(s, a);
            && |s'.workers| == |s.workers| && w < |s.workers| && s'.workers == s.workers[w := s'.workers[w]]
            && Effort(s'.workers[w]) == Effort(s.workers[w]) + Added(a)
  {
    var w := WorkerAt(s, a);
    if a.Dispatch? {
      BacklogDispatch(s.workers[w], a.items);
    } else {
      assert Backlog(s'.workers[w]) == Backlog(s.workers[w]);
    }
  }

  lemma StepEffort(s: State, a: Action, s': State)
    requires |s.workers| >= 1 && Next(s, a, s')
    ensures Efforts(s'.workers) + (if IsWork(a) then 1 else 0) <= Efforts(s.workers) + Added(a)
  {
    if !IsWork(a) {
      ArrivalEffort(s, a, s');
    } else if a.Work? {
      WorkEffort(s, a.w, s');
    } else if a.TakeItem? || a.TakeTimeout? {
      TakeEffort(s, a, s');
    } else {
      ChannelEffort(s, a, s');
    }
    var w := WorkerAt(s, a);
    EffortsUpdate(s.workers, w, s'.workers[w]);
  }

  // run is a run by these actions.
  ghost predicate RunsBy(run: seq<State>, acts: seq<Action>) {
    IsRun(run) && |run| == |acts| + 1 && forall k :: 0 <= k < |acts| ==> ActAt(run, acts, k)
  }

  predicate ActAt(run: seq<State>, acts: seq<Action>, k: nat)
    requires k < |acts| && |run| == |acts| + 1
  {
    |run[k].workers| >= 1 && Next(run[k], acts[k], run[k + 1])
  }

  // The steps that workers have taken, and the frames, messages and timeouts that have been sent.
  function Worked(acts: seq<Action>): nat {
    if acts == [] then 0
    else Worked(acts[..|acts| - 1]) + (if IsWork(acts[|acts| - 1]) then 1 else 0)
  }

  function FramesSent(acts: seq<Action>): nat {
    if acts == [] then 0
    else FramesSent(acts[..|acts| - 1]) + (if acts[|acts| - 1].Dispatch? then |acts[|acts| - 1].items| else 0)
  }

  function MessagesSent(acts: seq<Action>): nat {
    if acts == [] then 0
    else MessagesSent(acts[..|acts| - 1]) + (if acts[|acts| - 1].Dispatch? then 1 else 0)
  }

  function TimeoutsSent(acts: seq<Action>): nat {
    if acts == [] then 0
    else TimeoutsSent(acts[..|acts| - 1]) + (if acts[|acts| - 1].Expire? then 1 else 0)
  }

  lemma {:induction false} EffortIsSpent(run: seq<State>, acts: seq<Action>, n: nat)
    requires RunsBy(run, acts) && n <= |acts|
    ensures Worked(acts[..n]) + Efforts(run[n].workers)
            <= 7 * FramesSent(acts[..n]) + 3 * MessagesSent(acts[..n]) + 5 * TimeoutsSent(acts[..n])
  {
    if n == 0 {
      IdleEffort(run[0].workers);
    } else {
      EffortIsSpent(run, acts, n - 1);
      assert ActAt(run, acts, n - 1);
      StepEffort(run[n - 1], acts[n - 1], run[n]);
      assert acts[..n][..n - 1] == acts[..n - 1] && acts[..n][n - 1] == acts[n - 1];
    }
  }

  /** However the workers interleave, all of them together take at most seven steps for each frame, three for each
      message and five for each timeout: every backlog is worked off. */
  lemma WorkersFinish(run: seq<State>, acts: seq<Action>)
    requires RunsBy(run, acts)
    ensures Worked(acts) <= 7 * FramesSent(acts) + 3 * MessagesSent(acts) + 5 * TimeoutsSent(acts)
  {
    EffortIsSpent(run, acts, |acts|);
    assert acts[..|acts|] == acts;
  }

  // A step of worker w.
  ghost predicate CanStep(s: State, w: nat)
    requires |s.workers| >= 1
  {
    exists a, s' :: IsWork(a) && WorkerAt(s, a) == w && Next(s, a, s')
  }

  lemma BusyCanStep(run: seq<State>, i: nat, w: nat)
    requires IsRun(run) && i < |run| && w < |run[i].workers| && !run[i].workers[w].pc.Ready?
    ensures CanStep(run[i], w)
  {
    WorkerNeverLosesItsVolume(run, i, w);
    assert IsWork(Work(w)) && WorkerAt(run[i], Work(w)) == w && Next(run[i], Work(w), WorkNext(run[i], w).value);
  }

  lemma DecoderCanStep(s: State, w: nat)
    requires w < |s.workers| && (s.workers[w].decoding.Some? || s.workers[w].jobs != [])
    ensures CanStep(s, w)
  {
    var k := s.workers[w];
    var a := if k.decoding.Some? then EndDecode(w) else BeginDecode(w);
    var k' := if k.decoding.Some? then k.(results := k.results + [k.decoding.value], decoding := None)
              else k.(decoding := Some(k.jobs[0]), jobs := k.jobs[1..]);
    assert IsWork(a) && WorkerAt(s, a) == w && Next(s, a, SetWorker(s, w, k'));
  }

  lemma ReadyCanStep(s: State, w: nat)
    requires w < |s.workers| && s.workers[w].pc.Ready?
    requires s.workers[w].pending != [] || s.workers[w].results != [] || s.workers[w].timeouts != []
    ensures CanStep(s, w)
  {
    var k := s.workers[w];
    if k.pending != [] {
      var item := k.pending[0];
      var s' := SetWorker(s, w, k.(pending := k.pending[1..], pc := Loading(item)))
                .(log := s.log + [Entry(item.id, FrameIn(item.timestamp, item.data, true))]);
      var a := TakeItem(w, true);
      assert IsWork(a) && WorkerAt(s, a) == w && Next(s, a, s');
    } else if k.results != [] {
      var a, s' := Receive(w), SetWorker(s, w, k.(pending := k.results[0], results := k.results[1..]));
      assert IsWork(a) && WorkerAt(s, a) == w && Next(s, a, s');
    } else {
      var id := k.timeouts[0];
      var s' := SetWorker(s, w, k.(timeouts := k.timeouts[1..], pc := Expiring(id, true)))
                .(log := s.log + [Entry(id, TimeoutIn(true))]);
      var a := TakeTimeout(w, true);
      assert IsWork(a) && WorkerAt(s, a) == w && Next(s, a, s');
    }
  }

  /** A worker stops only when it has nothing left to do, whatever the others do. */
  lemma OnlyIdleWorkersStop(run: seq<State>, i: nat, w: nat)
    requires IsRun(run) && i < |run| && w < |run[i].workers| && !CanStep(run[i], w)
    ensures run[i].workers[w] == Worker([], None, [], [], [], Ready)
  {
    var k := run[i].workers[w];
    if !k.pc.Ready? {
      BusyCanStep(run, i, w);
    } else if k.decoding.Some? || k.jobs != [] {
      DecoderCanStep(run[i], w);
    } else if k.pending != [] || k.results != [] || k.timeouts != [] {
      ReadyCanStep(run[i], w);
    }
  }

  /** So when a sensor's worker has stopped, all frames dispatched for the sensor have been handled: its cache entry,
      map entry and chunks are those of a life in which exactly these frames came, in order. */
  lemma StoppedWorkerHasHandledAll(run: seq<State>, i: nat, id: nat)
    requires IsRun(run) && i < |run|
    ensures |run[i].workers| >= 1
    ensures !CanStep(run[i], WorkerOf(run[i], id)) ==>
              && View(run[i], id) == Run(UNKNOWN, EventsOf(run[i].log, id))
              && ItemsIn(id, EventsOf(run[i].log, id)) == Filter(run[i].arrived, Of(id))
  {
    SensorRunsAlone(run, i, id);
    if !CanStep(run[i], WorkerOf(run[i], id)) {
      OnlyIdleWorkersStop(run, i, WorkerOf(run[i], id));
      DispatchedFramesAreLived(run, i, id);
    }
  }
}
