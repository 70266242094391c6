/** What every interleaving of callers, consumer, handlers, expiring contexts and Close keeps. */
module TaskQueueSafety {
  import opened Wrappers
  import opened Sequences
  import opened TaskQueue

  // The tasks of a list of decisions, in order.
  function Decided(ds: seq<Decision>): seq<nat> {
    seq(|ds|, i requires 0 <= i < |ds| => ds[i].t)
  }

  function AtHand(c: Consumer): seq<nat> {
    if c.Deciding? then [c.t] else []
  }

  predicate Active(h: Handler) {
    h.Spawned? || h.Running? || h.Returned?
  }

  predicate CallerInside(c: Caller) {
    !c.Submitting? && c != TimedOut(BeforeInsert)
  }

  // The task's own fields agree with each other.
  predicate TaskOk(kind: Kind, task: Task) {
    && task.startCloses <= 1
    && task.handleRuns == (if task.handler.NotSpawned? || task.handler.Spawned? then 0 else 1)
    && task.completeCloses == (if task.handler.Completed? then 1 else 0)
    && (!task.handler.NotSpawned? ==> task.startCloses == 1)
    && (task.startCloses > 0 ==> task.place.Accepted?)
    && (CallerInside(task.caller) <==> !task.place.Outside?)
    && (task.expired <==> task.caller == TimedOut(BeforeStart))
    && (task.caller.TimedOut? ==> task.ctxDone)
    && (kind.Write? ==> !task.ctxDone)
    && (task.caller.AwaitComplete? || task.caller.Finished? || task.caller == TimedOut(BeforeComplete)
        ==> task.startCloses == 1)
    && (task.caller.Finished? ==> task.completeCloses == 1)
    && (task.place.Skipped? ==> task.expired)
  }

  // The task agrees with the consumer's position.
  predicate PositionOk(c: Consumer, t: nat, task: Task) {
    && (task.place.AtConsumer? <==> c == Deciding(t))
    && (c == Starting(t) || c == Spawning(t) || c == Watching(t) ==> task.place.Accepted?)
    && (c == Starting(t) ==> task.startCloses == 0)
    && (c == Spawning(t) ==> task.startCloses == 1 && task.handler.NotSpawned?)
    && (task.place.Accepted? && c != Starting(t) ==> task.startCloses == 1)
    && (task.place.Accepted? && c != Starting(t) && c != Spawning(t) ==> !task.handler.NotSpawned?)
    && (Active(task.handler) && !task.ctxDone ==> c == Watching(t))
  }

  predicate TasksOk(s: State) {
    && |s.kinds| == |s.tasks|
    && (forall t :: 0 <= t < |s.tasks| ==> TaskOk(s.kinds[t], s.tasks[t]) && PositionOk(s.consumer, t, s.tasks[t]))
    && (!s.consumer.Receiving? && !s.consumer.Ended? ==> s.consumer.t < |s.tasks|)
  }

  predicate ListsOk(s: State) {
    && s.inserted == Decided(s.decisions) + AtHand(s.consumer) + s.buffer
    && Distinct(s.inserted) && |s.buffer| <= s.capacity
    && (forall k :: 0 <= k < |s.inserted| ==> s.inserted[k] < |s.tasks| && !s.tasks[s.inserted[k]].place.Outside?)
    && (forall k :: 0 <= k < |s.buffer| ==> s.buffer[k] < |s.tasks| && s.tasks[s.buffer[k]].place.InBuffer?)
    && (forall k :: 0 <= k < |s.decisions| ==>
                      && s.decisions[k].t < |s.tasks|
                      && s.tasks[s.decisions[k].t].place == if s.decisions[k].started then Accepted else Skipped)
    && (forall t :: 0 <= t < |s.tasks| && !s.tasks[t].place.Outside? ==> t in s.inserted)
    && (s.consumer.Ended? ==> s.closed && s.buffer == [])
  }

  function IsWrite(kinds: seq<Kind>): nat -> bool {
    (t: nat) => t < |kinds| && kinds[t].Write?
  }

  // The write tasks of a list, in order.
  function Writes(kinds: seq<Kind>, ts: seq<nat>): seq<nat> {
    Filter(ts, IsWrite(kinds))
  }

  // A started task whose handler has not begun yet, when the consumer is still busy with it.
  function NotBegun(s: State): seq<nat> {
    match s.consumer
    case Starting(t) => [t]
    case Spawning(t) => [t]
    case Watching(t) => if t < |s.tasks| && s.tasks[t].handler.Spawned? then [t] else []
    case _ => []
  }

  predicate OrderOk(s: State) {
    Writes(s.kinds, s.begun) + Writes(s.kinds, NotBegun(s)) == Writes(s.kinds, Decided(s.decisions))
  }

  predicate Inv(s: State) {
    && TasksOk(s) && ListsOk(s) && OrderOk(s)
    && (s.crashed ==> s.closed)
  }

  // ---------- the write order ----------

  lemma DecidedAppend(ds: seq<Decision>, d: Decision)
    ensures Decided(ds + [d]) == Decided(ds) + [d.t]
  {
  }

  // ---------- every step keeps the invariant ----------

  lemma OrderFrame(s: State, s': State)
    requires OrderOk(s) && s'.kinds == s.kinds && s'.begun == s.begun && s'.decisions == s.decisions
    requires NotBegun(s') == NotBegun(s)
    ensures OrderOk(s')
  {
  }

  // A step that changes one task, and nothing else the lists depend on.
  lemma TaskMove(s: State, t: nat, task: Task)
    requires Inv(s) && t < |s.tasks| && !s.crashed
    requires TaskOk(s.kinds[t], task) && PositionOk(s.consumer, t, task) && task.place == s.tasks[t].place
    requires task.handler.Spawned? == s.tasks[t].handler.Spawned?
    ensures Inv(Put(s, t, task))
  {
    TaskMoveTasks(s, t, task);
    ListsMove(s, t, Put(s, t, task));
    OrderFrame(s, Put(s, t, task));
  }

  lemma TaskMoveTasks(s: State, t: nat, task: Task)
    requires TasksOk(s) && t < |s.tasks| && TaskOk(s.kinds[t], task) && PositionOk(s.consumer, t, task)
    ensures TasksOk(Put(s, t, task))
  {
  }

  lemma CtxKeeps(s: State, t: nat)
    requires Inv(s) && t < |s.tasks| && !s.crashed && s.kinds[t].Read?
    ensures Inv(Put(s, t, s.tasks[t].(ctxDone := true)))
  {
    TaskMove(s, t, s.tasks[t].(ctxDone := true));
  }

  lemma WaitKeeps(kind: Kind, c: Consumer, t: nat, task: Task, onTimeout: bool)
    requires TaskOk(kind, task) && PositionOk(c, t, task) && Wait(task, onTimeout).Some?
    ensures var task' := Wait(task, onTimeout).value;
            TaskOk(kind, task') && PositionOk(c, t, task') && task'.place == task.place && task'.handler == task.handler
  {
  }

  lemma CallerKeeps(s: State, t: nat, onTimeout: bool, s': State)
    requires Inv(s) && !s.crashed && t < |s.tasks| && CallerNext(s, t, onTimeout) == Some(s')
    requires onTimeout || !s.tasks[t].caller.Submitting?
    ensures Inv(s')
  {
    WaitKeeps(s.kinds[t], s.consumer, t, s.tasks[t], onTimeout);
    TaskMove(s, t, s'.tasks[t]);
  }

  lemma InsertKeeps(s: State, t: nat, s': State)
    requires Inv(s) && !s.crashed && t < |s.tasks| && s.tasks[t].caller.Submitting? && Insert(s, t) == Some(s')
    ensures Inv(s')
  {
    if !s.closed {
      InsertTasks(s, t, s');
      InsertLists(s, t, s');
      OrderFrame(s, s');
    }
  }

  lemma InsertTasks(s: State, t: nat, s': State)
    requires TasksOk(s) && !s.closed && t < |s.tasks| && s.tasks[t].caller.Submitting? && Insert(s, t) == Some(s')
    ensures TasksOk(s') && s.tasks[t].place.Outside?
  {
    assert TaskOk(s.kinds[t], s.tasks[t]) && PositionOk(s.consumer, t, s.tasks[t]);
    if |s.buffer| < s.capacity {
      TaskMoveTasks(s, t, s'.tasks[t]);
    } else {
      ConsumerMove(s, t, s');
    }
  }

  lemma InsertLists(s: State, t: nat, s': State)
    requires ListsOk(s) && t < |s.tasks| && s.tasks[t].place.Outside? && !s.closed
    requires |s'.tasks| == |s.tasks| && s'.tasks == s.tasks[t := s'.tasks[t]] && s'.inserted == s.inserted + [t]
    requires s'.decisions == s.decisions && s'.closed == s.closed
    requires s'.capacity == s.capacity && |s'.buffer| <= s.capacity
    requires || (s'.buffer == s.buffer + [t] && s'.consumer == s.consumer && s'.tasks[t].place.InBuffer?)
             || (s.buffer == [] && s'.buffer == [] && s.consumer.Receiving? && s'.consumer == Deciding(t)
                 && s'.tasks[t].place.AtConsumer?)
    ensures ListsOk(s')
  {
    assert t !in s.inserted;
    forall k | 0 <= k < |s.decisions| ensures s.decisions[k].t != t {
      assert s.tasks[s.decisions[k].t].place != Outside;
    }
  }

  predicate About(c: Consumer, t: nat) {
    c.Receiving? || c.Ended? || c.t == t
  }

  lemma PositionOther(c: Consumer, c': Consumer, t: nat, u: nat, task: Task)
    requires u != t && About(c, t) && About(c', t) && PositionOk(c, u, task)
    ensures PositionOk(c', u, task)
  {
  }

  // A step of the consumer that concerns one task.
  lemma ConsumerMove(s: State, t: nat, s': State)
    requires TasksOk(s) && t < |s.tasks| && About(s.consumer, t) && About(s'.consumer, t)
    requires s'.kinds == s.kinds && |s'.tasks| == |s.tasks| && s'.tasks == s.tasks[t := s'.tasks[t]]
    requires TaskOk(s.kinds[t], s'.tasks[t]) && PositionOk(s'.consumer, t, s'.tasks[t])
    ensures TasksOk(s')
  {
    forall u | 0 <= u < |s'.tasks| ensures TaskOk(s'.kinds[u], s'.tasks[u]) && PositionOk(s'.consumer, u, s'.tasks[u]) {
      if u != t {
        PositionOther(s.consumer, s'.consumer, t, u, s.tasks[u]);
      }
    }
  }

  // A step that leaves the three lists alone and every task in its place.
  lemma ListsMove(s: State, t: nat, s': State)
    requires ListsOk(s) && t < |s.tasks|
    requires |s'.tasks| == |s.tasks| && s'.tasks == s.tasks[t := s'.tasks[t]] && s'.tasks[t].place == s.tasks[t].place
    requires s'.inserted == s.inserted && s'.decisions == s.decisions && s'.buffer == s.buffer
    requires s'.closed == s.closed && s'.capacity == s.capacity
    requires AtHand(s'.consumer) == AtHand(s.consumer) && (s'.consumer.Ended? ==> s.consumer.Ended?)
    ensures ListsOk(s')
  {
  }

  // Receiving moves the head of the channel to the consumer.
  lemma ReceiveKeeps(s: State, s': State)
    requires Inv(s) && !s.crashed && ConsumerNext(s) == Some(s') && s.consumer.Receiving?
    ensures Inv(s')
  {
    if s.buffer != [] {
      ConsumerMove(s, s.buffer[0], s');
      ReceiveLists(s, s');
      assert NotBegun(s') == NotBegun(s);
    } else {
      assert NotBegun(s') == NotBegun(s);
      if 0 < |s.tasks| { ConsumerMove(s, 0, s'); }
    }
  }

  lemma ReceiveLists(s: State, s': State)
    requires ListsOk(s) && s.consumer.Receiving? && s.buffer != []
    requires s' == Put(s, s.buffer[0], s.tasks[s.buffer[0]].(place := AtConsumer))
                   .(buffer := s.buffer[1..], consumer := Deciding(s.buffer[0]))
    ensures ListsOk(s')
  {
    HeadMoves(Decided(s.decisions), s.buffer);
    assert s'.inserted == Decided(s'.decisions) + AtHand(s'.consumer) + s'.buffer;
    HeadIsUnique(Decided(s.decisions), s.buffer);
    assert forall k :: 0 <= k < |s'.buffer| ==> s'.buffer[k] == s.buffer[k + 1];
    forall k | 0 <= k < |s.decisions| ensures s.decisions[k].t != s.buffer[0] {
      assert s.tasks[s.decisions[k].t].place != InBuffer;
    }
  }

  lemma HeadMoves(front: seq<nat>, back: seq<nat>)
    requires back != []
    ensures front + [] + back == front + [back[0]] + back[1..]
  {
  }

  lemma HeadIsUnique(front: seq<nat>, back: seq<nat>)
    requires back != [] && Distinct(front + [] + back)
    ensures forall k :: 1 <= k < |back| ==> back[k] != back[0]
  {
    var all := front + [] + back;
    forall k | 1 <= k < |back| ensures back[k] != back[0] {
      assert all[|front|] == back[0] && all[|front| + k] == back[k];
    }
  }

  lemma DecideKeeps(s: State, s': State)
    requires Inv(s) && !s.crashed && ConsumerNext(s) == Some(s') && s.consumer.Deciding?
    ensures Inv(s')
  {
    var t := s.consumer.t;
    var d := Decision(t, !s.tasks[t].expired);
    ConsumerMove(s, t, s');
    DecideLists(s, s', d);
    DecideOrder(s, s', d);
  }

  lemma DecideOrder(s: State, s': State, d: Decision)
    requires TasksOk(s) && OrderOk(s) && s.consumer == Deciding(d.t) && s'.kinds == s.kinds && s'.begun == s.begun
    requires s'.consumer == (if d.started then Starting(d.t) else Receiving) && s'.decisions == s.decisions + [d]
    requires !d.started ==> s.tasks[d.t].expired
    ensures OrderOk(s')
  {
    DecidedAppend(s.decisions, d);
    FilterAppend(Decided(s.decisions), IsWrite(s.kinds), d.t);
    FilterOne(IsWrite(s.kinds), d.t);
    assert NotBegun(s) == [];
    assert NotBegun(s') == if d.started then [d.t] else [];
  }

  lemma DecideLists(s: State, s': State, d: Decision)
    requires TasksOk(s) && ListsOk(s) && s.consumer == Deciding(d.t)
    requires s' == Put(s, d.t, s.tasks[d.t].(place := if d.started then Accepted else Skipped))
                   .(consumer := if d.started then Starting(d.t) else Receiving, decisions := s.decisions + [d])
    ensures ListsOk(s')
  {
    DecidedAppend(s.decisions, d);
    assert s'.inserted == Decided(s'.decisions) + AtHand(s'.consumer) + s'.buffer;
    assert s.tasks[d.t].place == AtConsumer;
    forall k | 0 <= k < |s.decisions| ensures s.decisions[k].t != d.t {
      assert s.tasks[s.decisions[k].t].place != AtConsumer;
    }
    forall k | 0 <= k < |s.buffer| ensures s.buffer[k] != d.t {
      assert s.tasks[s.buffer[k]].place != AtConsumer;
    }
  }

  // Closing the start channel and spawning the handler.
  lemma StartKeeps(s: State, s': State)
    requires Inv(s) && !s.crashed && ConsumerNext(s) == Some(s') && (s.consumer.Starting? || s.consumer.Spawning?)
    ensures Inv(s')
  {
    var t := s.consumer.t;
    assert TaskOk(s.kinds[t], s.tasks[t]) && PositionOk(s.consumer, t, s.tasks[t]);
    ConsumerMove(s, t, s');
    ListsMove(s, t, s');
    OrderFrame(s, s');
  }

  // The consumer turns to the next task; a handler it leaves behind is no write that has yet to begin.
  lemma LeaveKeeps(s: State, s': State)
    requires Inv(s) && !s.crashed && ConsumerNext(s) == Some(s') && s.consumer.Watching?
    ensures Inv(s')
  {
    var t := s.consumer.t;
    assert TaskOk(s.kinds[t], s.tasks[t]) && PositionOk(s.consumer, t, s.tasks[t]);
    ConsumerMove(s, t, s');
    ListsMove(s, t, s');
    LeaveOrder(s, s');
  }

  lemma LeaveOrder(s: State, s': State)
    requires OrderOk(s) && s.consumer.Watching? && s.consumer.t < |s.tasks| && s.consumer.t < |s.kinds|
    requires TaskOk(s.kinds[s.consumer.t], s.tasks[s.consumer.t])
    requires s.tasks[s.consumer.t].ctxDone || s.tasks[s.consumer.t].completeCloses > 0
    requires s' == s.(consumer := Receiving)
    ensures OrderOk(s')
  {
    FilterOne(IsWrite(s.kinds), s.consumer.t);
  }

  lemma HandlerKeeps(s: State, t: nat, s': State)
    requires Inv(s) && !s.crashed && t < |s.tasks| && HandlerNext(s, t) == Some(s') && !s.tasks[t].handler.Spawned?
    ensures Inv(s')
  {
    HandlerTaskKeeps(s.kinds[t], s.consumer, t, s.tasks[t]);
    if s.tasks[t].handler.Running? {
      TaskMove(s, t, s.tasks[t].(handler := Returned));
    } else {
      TaskMove(s, t, s.tasks[t].(handler := Completed, completeCloses := 1));
    }
  }

  lemma HandlerTaskKeeps(kind: Kind, c: Consumer, t: nat, task: Task)
    requires TaskOk(kind, task) && PositionOk(c, t, task)
    ensures task.handler.Running? ==>
              var task' := task.(handler := Returned); TaskOk(kind, task') && PositionOk(c, t, task')
    ensures task.handler.Returned? ==>
              && task.completeCloses == 0
              && var task' := task.(handler := Completed, completeCloses := 1);
                 TaskOk(kind, task') && PositionOk(c, t, task')
  {
  }

  lemma BeginKeeps(s: State, t: nat, s': State)
    requires Inv(s) && !s.crashed && t < |s.tasks| && HandlerNext(s, t) == Some(s') && s.tasks[t].handler.Spawned?
    ensures Inv(s')
  {
    BeginTasks(s, t, s');
    ListsMove(s, t, s');
    BeginOrder(s, t, s');
  }

  lemma BeginTasks(s: State, t: nat, s': State)
    requires TasksOk(s) && t < |s.tasks| && s.tasks[t].handler.Spawned?
    requires s'.kinds == s.kinds && s'.consumer == s.consumer
    requires s'.tasks == s.tasks[t := s.tasks[t].(handler := Running, handleRuns := s.tasks[t].handleRuns + 1)]
    ensures TasksOk(s')
  {
  }

  // A handler that begins is the one the consumer watches, unless its context has ended: then it is no write.
  lemma BeginOrder(s: State, t: nat, s': State)
    requires OrderOk(s) && t < |s.tasks| && t < |s.kinds| && s.tasks[t].handler.Spawned?
    requires TaskOk(s.kinds[t], s.tasks[t]) && PositionOk(s.consumer, t, s.tasks[t])
    requires s'.kinds == s.kinds && s'.consumer == s.consumer
    requires s'.decisions == s.decisions && s'.begun == s.begun + [t]
    requires |s'.tasks| == |s.tasks| && s'.tasks == s.tasks[t := s'.tasks[t]] && s'.tasks[t].handler.Running?
    ensures OrderOk(s')
  {
    BeginWrites(s.kinds, s.begun, NotBegun(s), NotBegun(s'), Decided(s.decisions), t);
  }

  lemma BeginWrites(kinds: seq<Kind>, begun: seq<nat>, waiting: seq<nat>, waiting': seq<nat>, decided: seq<nat>, t: nat)
    requires Writes(kinds, begun) + Writes(kinds, waiting) == Writes(kinds, decided) && t < |kinds|
    requires (waiting == [t] && waiting' == []) || (waiting' == waiting && kinds[t].Read?)
    ensures Writes(kinds, begun + [t]) + Writes(kinds, waiting') == Writes(kinds, decided)
  {
    FilterAppend(begun, IsWrite(kinds), t);
    FilterOne(IsWrite(kinds), t);
  }

  lemma NextKeeps(s: State, a: Action, s': State)
    requires Inv(s) && Next(s, a, s')
    ensures Inv(s')
  {
    match a
    case CtxExpires(t) => CtxKeeps(s, t);
    case CallerStep(t, onTimeout) =>
      if onTimeout || !s.tasks[t].caller.Submitting? {
        CallerKeeps(s, t, onTimeout, s');
      } else {
        InsertKeeps(s, t, s');
      }
    case ConsumerStep =>
      match s.consumer {
        case Receiving => ReceiveKeeps(s, s');
        case Deciding(_) => DecideKeeps(s, s');
        case Watching(_) => LeaveKeeps(s, s');
        case Ended => assert false;
        case _ => StartKeeps(s, s');
      }
    case HandlerStep(t) => if s.tasks[t].handler.Spawned? { BeginKeeps(s, t, s'); } else { HandlerKeeps(s, t, s'); }
    case CloseQueue =>
  }

  lemma InitialKeeps(s: State)
    requires Initial(s)
    ensures Inv(s)
  {
  }
}
