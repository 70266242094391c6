/**
 One read/write task queue (pkg/arc_volume/queue.go, queue_task.go) as a machine over atomic steps: any
 number of DoTask callers, one consumer, one goroutine per started task, contexts that may expire at any
 moment, and Close.
*/
module TaskQueue {
  import opened Wrappers

  // A read has a context with a timeout; a write runs under context.Background(), which never ends.
  datatype Kind = Read | Write

  datatype Phase = BeforeInsert | BeforeStart | BeforeComplete

  // Where DoTask stands.
  datatype Caller = Submitting | AwaitStart | AwaitComplete | TimedOut(phase: Phase) | Finished

  // Where the goroutine that runs handle() stands.
  datatype Handler = NotSpawned | Spawned | Running | Returned | Completed

  // Where the task stands with respect to the channel. Recorded for the proofs; no step reads it.
  datatype Place = Outside | InBuffer | AtConsumer | Skipped | Accepted

  // startCloses and completeCloses count how often the two channels were closed.
  datatype Task = Task(
    ctxDone: bool,
    expired: bool,
    startCloses: nat,
    completeCloses: nat,
    handler: Handler,
    handleRuns: nat,
    caller: Caller,
    place: Place)

  const NEW_TASK := Task(false, false, 0, 0, NotSpawned, 0, Submitting, Outside)

  datatype Consumer =
    | Receiving
    | Deciding(t: nat)
    | Starting(t: nat)
    | Spawning(t: nat)
    | Watching(t: nat)
    | Ended

  datatype Decision = Decision(t: nat, started: bool)

  // `inserted`, `decisions` and `begun` record history: the tasks sent to the channel, what the consumer
  // did with each, and the order in which handlers began to run.
  datatype State = State(
    capacity: nat,
    kinds: seq<Kind>,
    tasks: seq<Task>,
    buffer: seq<nat>,
    consumer: Consumer,
    closed: bool,
    crashed: bool,
    inserted: seq<nat>,
    decisions: seq<Decision>,
    begun: seq<nat>)

  datatype Action =
    | CtxExpires(t: nat)
    | CallerStep(t: nat, onTimeout: bool)
    | ConsumerStep
    | HandlerStep(t: nat)
    | CloseQueue

  function Put(s: State, t: nat, task: Task): State
    requires t < |s.tasks|
  {
    s.(tasks := s.tasks[t := task])
  }

  /** DoTask. Each of its three selects takes a ready branch; `onTimeout` says which one was picked. These
      are the branches that concern the task alone. */
  function Wait(task: Task, onTimeout: bool): Option<Task> {
    match task.caller
    case Submitting =>
      if onTimeout && task.ctxDone then Some(task.(caller := TimedOut(BeforeInsert))) else None
    case AwaitStart =>
      if onTimeout && task.ctxDone then Some(task.(expired := true, caller := TimedOut(BeforeStart)))
      else if !onTimeout && task.startCloses > 0 then Some(task.(caller := AwaitComplete))
      else None
    case AwaitComplete =>
      if onTimeout && task.ctxDone then Some(task.(caller := TimedOut(BeforeComplete)))
      else if !onTimeout && task.completeCloses > 0 then Some(task.(caller := Finished))
      else None
    case TimedOut(_) => None
    case Finished => None
  }

  // The send of DoTask's first select. A send on a closed channel panics; a channel without a buffer hands
  // the task straight to a waiting consumer.
  function Insert(s: State, t: nat): Option<State>
    requires t < |s.tasks|
  {
    var task := s.tasks[t];
    if s.closed then Some(s.(crashed := true))
    else if |s.buffer| < s.capacity then
      Some(Put(s, t, task.(caller := AwaitStart, place := InBuffer))
           .(buffer := s.buffer + [t], inserted := s.inserted + [t]))
    else if s.capacity == 0 && s.consumer.Receiving? then
      Some(Put(s, t, task.(caller := AwaitStart, place := AtConsumer))
           .(consumer := Deciding(t), inserted := s.inserted + [t]))
    else None
  }

  function CallerNext(s: State, t: nat, onTimeout: bool): Option<State>
    requires t < |s.tasks|
  {
    if s.tasks[t].caller.Submitting? && !onTimeout then Insert(s, t) else
    match Wait(s.tasks[t], onTimeout)
    case None => None
    case Some(task) => Some(Put(s, t, task))
  }

  /** queue.start: receive, skip an expired task, else close its start channel, spawn the handler and wait
      for its completion or the end of its context. Closing a closed channel panics. */
  function ConsumerNext(s: State): Option<State> {
    match s.consumer
    case Receiving =>
      if s.buffer != [] then
        var t := s.buffer[0];
        if t >= |s.tasks| then None else
        Some(Put(s, t, s.tasks[t].(place := AtConsumer)).(buffer := s.buffer[1..], consumer := Deciding(t)))
      else if s.closed then Some(s.(consumer := Ended))
      else None
    case Deciding(t) =>
      if t >= |s.tasks| then None else
      if s.tasks[t].expired then
        Some(Put(s, t, s.tasks[t].(place := Skipped))
             .(consumer := Receiving, decisions := s.decisions + [Decision(t, false)]))
      else
        Some(Put(s, t, s.tasks[t].(place := Accepted))
             .(consumer := Starting(t), decisions := s.decisions + [Decision(t, true)]))
    case Starting(t) =>
      if t >= |s.tasks| then None else
      Some(Put(s, t, s.tasks[t].(startCloses := s.tasks[t].startCloses + 1))
           .(consumer := Spawning(t), crashed := s.tasks[t].startCloses > 0))
    case Spawning(t) =>
      if t >= |s.tasks| then None else
      Some(Put(s, t, s.tasks[t].(handler := Spawned)).(consumer := Watching(t)))
    case Watching(t) =>
      if t < |s.tasks| && (s.tasks[t].ctxDone || s.tasks[t].completeCloses > 0) then Some(s.(consumer := Receiving))
      else None
    case Ended => None
  }

  /** The goroutine of one started task: handle(), then the deferred complete(). */
  function HandlerNext(s: State, t: nat): Option<State>
    requires t < |s.tasks|
  {
    var task := s.tasks[t];
    match task.handler
    case NotSpawned => None
    case Spawned =>
      Some(Put(s, t, task.(handler := Running, handleRuns := task.handleRuns + 1)).(begun := s.begun + [t]))
    case Running => Some(Put(s, t, task.(handler := Returned)))
    case Returned =>
      Some(Put(s, t, task.(handler := Completed, completeCloses := task.completeCloses + 1))
           .(crashed := task.completeCloses > 0))
    case Completed => None
  }

  predicate Next(s: State, a: Action, s': State) {
    && !s.crashed
    && match a
       case CtxExpires(t) =>
         t < |s.tasks| && t < |s.kinds| && s.kinds[t].Read? && s' == Put(s, t, s.tasks[t].(ctxDone := true))
       case CallerStep(t, onTimeout) => t < |s.tasks| && CallerNext(s, t, onTimeout) == Some(s')
       case ConsumerStep => ConsumerNext(s) == Some(s')
       case HandlerStep(t) => t < |s.tasks| && HandlerNext(s, t) == Some(s')
       case CloseQueue => s' == s.(closed := true)
  }

  predicate Initial(s: State) {
    && |s.kinds| == |s.tasks|
    && (forall t :: 0 <= t < |s.tasks| ==> s.tasks[t] == NEW_TASK)
    && s.buffer == [] && s.consumer == Receiving && !s.closed && !s.crashed
    && s.inserted == [] && s.decisions == [] && s.begun == []
  }

  ghost predicate Steps(s: State, s': State) {
    exists a :: Next(s, a, s')
  }

  ghost predicate StepAt(run: seq<State>, i: nat)
    requires i + 1 < |run|
  {
    Steps(run[i], run[i + 1])
  }

  // All states a run visits, first to last.
  ghost predicate IsRun(run: seq<State>) {
    && |run| > 0 && Initial(run[0])
    && forall i :: 0 <= i < |run| - 1 ==> StepAt(run, i)
  }
}
