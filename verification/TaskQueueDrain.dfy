/** A closed queue drains within a bounded number of steps of its consumer and handlers. */
module TaskQueueDrain {
  import opened Wrappers
  import opened TaskQueue
  import opened TaskQueueSafety
  import opened TaskQueueRuns

  // How many steps a spawned handler, the consumer, and all of them still have to take at most.
  function HandlerWork(h: Handler): nat {
    match h
    case NotSpawned => 0
    case Spawned => 3
    case Running => 2
    case Returned => 1
    case Completed => 0
  }

  function ConsumerWork(c: Consumer): nat {
    match c
    case Receiving => 1
    case Deciding(_) => 8
    case Starting(_) => 7
    case Spawning(_) => 6
    case Watching(_) => 2
    case Ended => 0
  }

  function HandlersWork(tasks: seq<Task>): nat {
    if tasks == [] then 0 else HandlersWork(tasks[..|tasks| - 1]) + HandlerWork(tasks[|tasks| - 1].handler)
  }

  function Work(s: State): nat {
    8 * |s.buffer| + ConsumerWork(s.consumer) + HandlersWork(s.tasks)
  }

  lemma {:induction false} WorkUpdate(tasks: seq<Task>, t: nat, task: Task)
    requires t < |tasks|
    ensures HandlersWork(tasks[t := task])
            == HandlersWork(tasks) - HandlerWork(tasks[t].handler) + HandlerWork(task.handler)
  {
    var last := |tasks| - 1;
    if t == last {
      assert tasks[t := task][..last] == tasks[..last];
    } else {
      WorkUpdate(tasks[..last], t, task);
      assert tasks[t := task][..last] == tasks[..last][t := task];
    }
  }

  lemma {:induction false} WorkBound(tasks: seq<Task>)
    ensures HandlersWork(tasks) <= 3 * |tasks|
  {
    if tasks != [] {
      WorkBound(tasks[..|tasks| - 1]);
    }
  }

  predicate IsWork(a: Action) {
    a.ConsumerStep? || a.HandlerStep?
  }

  // A step that changes the handler of one task.
  lemma OneTask(s: State, t: nat, s': State)
    requires t < |s.tasks| == |s'.tasks| && s'.tasks == s.tasks[t := s'.tasks[t]]
    ensures Work(s') - Work(s) == 8 * (|s'.buffer| - |s.buffer|) + ConsumerWork(s'.consumer) - ConsumerWork(s.consumer)
                                  + HandlerWork(s'.tasks[t].handler) - HandlerWork(s.tasks[t].handler)
  {
    WorkUpdate(s.tasks, t, s'.tasks[t]);
  }

  lemma ReceiverWorks(s: State, s': State)
    requires ConsumerNext(s) == Some(s') && s.consumer.Receiving?
    ensures Work(s') < Work(s)
  {
    if s.buffer != [] {
      OneTask(s, s.buffer[0], s');
    }
  }

  lemma WatcherWorks(s: State, s': State)
    requires ConsumerNext(s) == Some(s') && s.consumer.Watching?
    ensures Work(s') < Work(s)
  {
  }

  lemma ConsumerWorks(s: State, s': State)
    requires ConsumerNext(s) == Some(s') && TasksOk(s)
    ensures Work(s') < Work(s)
  {
    if s.consumer.Receiving? {
      ReceiverWorks(s, s');
    } else if s.consumer.Watching? {
      WatcherWorks(s, s');
    } else {
      var t := s.consumer.t;
      assert PositionOk(s.consumer, t, s.tasks[t]);
      OneTask(s, t, s');
    }
  }

  lemma HandlerWorks(s: State, t: nat, s': State)
    requires t < |s.tasks| && HandlerNext(s, t) == Some(s')
    ensures Work(s') < Work(s)
  {
    OneTask(s, t, s');
  }

  // Every other step of a closed queue leaves the work as it is.
  lemma OthersLeaveWork(s: State, a: Action, s': State)
    requires Next(s, a, s') && !IsWork(a) && s.closed && !s'.crashed
    ensures Work(s') == Work(s) && s'.closed
  {
    match a
    case CtxExpires(t) => OneTask(s, t, s');
    case CallerStep(t, onTimeout) => OneTask(s, t, s');
    case CloseQueue =>
  }

  lemma WorkStep(s: State, a: Action, s': State)
    requires Inv(s) && Next(s, a, s') && s.closed && !s'.crashed
    ensures s'.closed && Work(s') + (if IsWork(a) then 1 else 0) <= Work(s)
  {
    match a
    case ConsumerStep => ConsumerWorks(s, s');
    case HandlerStep(t) => HandlerWorks(s, t, s');
    case _ => OthersLeaveWork(s, a, s');
  }

  // run is a run by these actions.
  ghost predicate RunsBy(run: seq<State>, acts: seq<Action>) {
    IsRun(run) && |run| == |acts| + 1 && forall k :: 0 <= k < |acts| ==> ActAt(run, acts, k)
  }

  predicate ActAt(run: seq<State>, acts: seq<Action>, k: nat)
    requires k < |acts| && |run| == |acts| + 1
  {
    Next(run[k], acts[k], run[k + 1])
  }

  function Worked(acts: seq<Action>, i: nat, j: nat): nat
    requires i <= j <= |acts|
  {
    if i == j then 0 else Worked(acts, i, j - 1) + (if IsWork(acts[j - 1]) then 1 else 0)
  }

  lemma StepSpends(run: seq<State>, acts: seq<Action>, k: nat)
    requires RunsBy(run, acts) && k < |acts|
    ensures !run[k].crashed
    ensures run[k].closed && !run[k + 1].crashed ==>
              run[k + 1].closed && Work(run[k + 1]) + (if IsWork(acts[k]) then 1 else 0) <= Work(run[k])
  {
    assert ActAt(run, acts, k);
    if run[k].closed && !run[k + 1].crashed {
      RunKeeps(run, k);
      WorkStep(run[k], acts[k], run[k + 1]);
    }
  }

  lemma {:induction false} WorkIsSpent(run: seq<State>, acts: seq<Action>, i: nat, j: nat)
    requires RunsBy(run, acts) && i <= j < |run| && run[i].closed && !run[j].crashed
    ensures run[j].closed && Worked(acts, i, j) + Work(run[j]) <= Work(run[i])
  {
    if i < j {
      StepSpends(run, acts, j - 1);
      WorkIsSpent(run, acts, i, j - 1);
    }
  }

  /** From Close on, the consumer and the handlers take at most eight steps for each buffered task, eight for the
      task at hand and three for each handler, however callers and contexts interleave. */
  lemma ClosedQueueDrains(run: seq<State>, acts: seq<Action>, i: nat, j: nat)
    requires RunsBy(run, acts) && i <= j < |run| && run[i].closed && !run[j].crashed
    ensures Worked(acts, i, j) <= 8 * |run[i].buffer| + 8 + 3 * |run[i].tasks|
  {
    WorkIsSpent(run, acts, i, j);
    WorkBound(run[i].tasks);
  }

  /** And they stop only when the queue has drained: when neither the consumer nor the handler it waits for can take
      a step in a closed queue, the consumer has ended and everything inserted has been decided. */
  lemma OnlyDrainedStops(run: seq<State>, i: nat)
    requires IsRun(run) && i < |run| && run[i].closed && !run[i].crashed
    requires ConsumerNext(run[i]).None?
    requires run[i].consumer.Watching? && run[i].consumer.t < |run[i].tasks| ==>
               HandlerNext(run[i], run[i].consumer.t).None?
    ensures run[i].consumer.Ended? && run[i].buffer == [] && run[i].inserted == Decided(run[i].decisions)
  {
    if !run[i].consumer.Ended? {
      ConsumerCanMove(run, i);
    }
    Drained(run, i);
  }
}
