/** The task queue's guarantees over whole runs. */
module TaskQueueRuns {
  import opened Sequences
  import opened TaskQueue
  import opened TaskQueueSafety

  lemma {:induction false} RunKeeps(run: seq<State>, i: nat)
    requires IsRun(run) && i < |run|
    ensures Inv(run[i])
  {
    if i == 0 {
      InitialKeeps(run[0]);
    } else {
      RunKeeps(run, i - 1);
      assert StepAt(run, i - 1);
      var a :| Next(run[i - 1], a, run[i]);
      NextKeeps(run[i - 1], a, run[i]);
    }
  }

  /** At most one handler whose context is still alive is under way, so two writes never overlap. */
  lemma MutualExclusion(run: seq<State>, i: nat, t: nat, u: nat)
    requires IsRun(run) && i < |run| && t < |run[i].tasks| && u < |run[i].tasks| && t != u
    requires Active(run[i].tasks[t].handler) && Active(run[i].tasks[u].handler)
    ensures run[i].tasks[t].ctxDone || run[i].tasks[u].ctxDone
    ensures |run[i].kinds| == |run[i].tasks| && (run[i].kinds[t].Read? || run[i].kinds[u].Read?)
  {
    RunKeeps(run, i);
    assert TaskOk(run[i].kinds[t], run[i].tasks[t]) && PositionOk(run[i].consumer, t, run[i].tasks[t]);
    assert TaskOk(run[i].kinds[u], run[i].tasks[u]) && PositionOk(run[i].consumer, u, run[i].tasks[u]);
  }

  /** A task is handled at most once, and each of its channels is closed at most once. */
  lemma HandledAtMostOnce(run: seq<State>, i: nat, t: nat)
    requires IsRun(run) && i < |run| && t < |run[i].tasks|
    ensures var task := run[i].tasks[t];
            task.completeCloses <= task.handleRuns <= task.startCloses <= 1
    ensures run[i].crashed ==> run[i].closed
  {
    RunKeeps(run, i);
    assert TaskOk(run[i].kinds[t], run[i].tasks[t]);
  }

  /** The exact panics: a step of a run panics if and only if it is a caller's send on the closed queue. A second
      close of a task's channel never happens, not even while a closed queue drains. */
  lemma OnlyLateSendsPanic(run: seq<State>, i: nat, a: Action, s': State)
    requires IsRun(run) && i < |run| && Next(run[i], a, s')
    ensures s'.crashed <==>
            a.CallerStep? && !a.onTimeout && run[i].tasks[a.t].caller.Submitting? && run[i].closed
  {
    RunKeeps(run, i);
    var s := run[i];
    if a.ConsumerStep? && s.consumer.Starting? {
      assert PositionOk(s.consumer, s.consumer.t, s.tasks[s.consumer.t]);
    } else if a.HandlerStep? {
      assert TaskOk(s.kinds[a.t], s.tasks[a.t]);
    }
  }

  /** A task given up before insertion, or skipped by the consumer, is never handled; the caller of a
      skipped task got its timeout. */
  lemma GivenUpMeansUnhandled(run: seq<State>, i: nat, t: nat)
    requires IsRun(run) && i < |run| && t < |run[i].tasks|
    requires run[i].tasks[t].caller == TimedOut(BeforeInsert) || run[i].tasks[t].place.Skipped?
    ensures run[i].tasks[t].handleRuns == 0 && run[i].tasks[t].handler.NotSpawned?
    ensures run[i].tasks[t].ctxDone && run[i].tasks[t].caller.TimedOut?
  {
    RunKeeps(run, i);
    assert TaskOk(run[i].kinds[t], run[i].tasks[t]);
  }

  /** DoTask returns on the completion path only after exactly one finished run of handle(). */
  lemma FinishedMeansHandled(run: seq<State>, i: nat, t: nat)
    requires IsRun(run) && i < |run| && t < |run[i].tasks| && run[i].tasks[t].caller.Finished?
    ensures run[i].tasks[t].handler.Completed? && run[i].tasks[t].handleRuns == 1
    ensures run[i].tasks[t].startCloses == 1 && run[i].tasks[t].completeCloses == 1
  {
    RunKeeps(run, i);
    assert TaskOk(run[i].kinds[t], run[i].tasks[t]);
  }

  /** A write never times out: its DoTask can only end after its handler has finished. */
  lemma WriteIsSynchronous(run: seq<State>, i: nat, t: nat)
    requires IsRun(run) && i < |run| && t < |run[i].tasks| && t < |run[i].kinds| && run[i].kinds[t].Write?
    ensures !run[i].tasks[t].caller.TimedOut? && !run[i].tasks[t].place.Skipped?
    ensures run[i].tasks[t].caller.Finished? ==> run[i].tasks[t].handler.Completed? && t in run[i].inserted
  {
    RunKeeps(run, i);
    assert TaskOk(run[i].kinds[t], run[i].tasks[t]);
  }

  const STARTED := (d: Decision) => d.started
  const SKIPPED := (d: Decision) => !d.started

  lemma {:induction false} StartsAndSkips(ds: seq<Decision>)
    ensures Count(ds, STARTED) + Count(ds, SKIPPED) == |ds|
  {
    if ds != [] {
      StartsAndSkips(ds[..|ds| - 1]);
    }
  }

  // What a decision of the consumer has come to: a started task has its start channel closed and its handler
  // spawned as soon as the consumer has done these two steps, and a skipped task is never started.
  predicate Carried(s: State, d: Decision) {
    && d.t < |s.tasks|
    && var task := s.tasks[d.t];
       if d.started then
         && task.place.Accepted?
         && task.startCloses == (if s.consumer == Starting(d.t) then 0 else 1)
         && (task.handler.NotSpawned? <==> s.consumer == Starting(d.t) || s.consumer == Spawning(d.t))
       else
         && task.place.Skipped? && task.caller == TimedOut(BeforeStart)
         && task.startCloses == 0 && task.handler.NotSpawned? && task.handleRuns == 0
  }

  lemma DecisionCarried(s: State, k: nat)
    requires TasksOk(s) && ListsOk(s) && k < |s.decisions|
    ensures Carried(s, s.decisions[k])
  {
    var t := s.decisions[k].t;
    assert TaskOk(s.kinds[t], s.tasks[t]) && PositionOk(s.consumer, t, s.tasks[t]);
  }

  /** Conservation: the tasks sent to the channel, in order and without repetition, are those the consumer
      has decided on, then the one at hand, then those still buffered. */
  lemma Conservation(run: seq<State>, i: nat)
    requires IsRun(run) && i < |run|
    ensures forall k :: 0 <= k < |run[i].decisions| ==> Carried(run[i], run[i].decisions[k])
    ensures var s := run[i];
            && s.inserted == Decided(s.decisions) + AtHand(s.consumer) + s.buffer && Distinct(s.inserted)
            && |s.inserted|
               == Count(s.decisions, STARTED) + Count(s.decisions, SKIPPED) + |AtHand(s.consumer)| + |s.buffer|
  {
    RunKeeps(run, i);
    StartsAndSkips(run[i].decisions);
    forall k | 0 <= k < |run[i].decisions|
      ensures Carried(run[i], run[i].decisions[k])
    {
      DecisionCarried(run[i], k);
    }
  }

  /** The consumer ends only after Close and with nothing buffered: everything inserted has been decided. */
  lemma Drained(run: seq<State>, i: nat)
    requires IsRun(run) && i < |run| && run[i].consumer.Ended?
    ensures run[i].closed && run[i].buffer == [] && run[i].inserted == Decided(run[i].decisions)
  {
    RunKeeps(run, i);
  }

  lemma PrefixChain(a: seq<nat>, b: seq<nat>, ab: seq<nat>, c: seq<nat>)
    requires a + b == ab
    ensures a <= ab + c
  {
  }

  /** The handlers of write tasks begin in the order in which the tasks were inserted. */
  lemma WritesBeginInOrder(run: seq<State>, i: nat)
    requires IsRun(run) && i < |run|
    ensures Writes(run[i].kinds, run[i].begun) <= Writes(run[i].kinds, run[i].inserted)
  {
    RunKeeps(run, i);
    BegunArePrefix(run[i]);
  }

  lemma BegunArePrefix(s: State)
    requires OrderOk(s) && s.inserted == Decided(s.decisions) + AtHand(s.consumer) + s.buffer
    ensures Writes(s.kinds, s.begun) <= Writes(s.kinds, s.inserted)
  {
    var decided, later := Decided(s.decisions), AtHand(s.consumer) + s.buffer;
    assert s.inserted == decided + later;
    FilterConcat(decided, later, IsWrite(s.kinds));
    PrefixChain(Writes(s.kinds, s.begun), Writes(s.kinds, NotBegun(s)), Writes(s.kinds, decided),
                Writes(s.kinds, later));
  }

  /** The queue cannot get stuck: while something is buffered or at hand, or the queue is closed, the
      consumer or the handler it waits for can take a step. */
  lemma ConsumerCanMove(run: seq<State>, i: nat)
    requires IsRun(run) && i < |run| && !run[i].crashed && !run[i].consumer.Ended?
    requires run[i].consumer.Receiving? ==> run[i].buffer != [] || run[i].closed
    ensures || ConsumerNext(run[i]).Some?
            || (run[i].consumer.Watching? && run[i].consumer.t < |run[i].tasks|
                && HandlerNext(run[i], run[i].consumer.t).Some?)
  {
    RunKeeps(run, i);
    var s := run[i];
    if !s.consumer.Receiving? {
      assert TaskOk(s.kinds[s.consumer.t], s.tasks[s.consumer.t]);
      assert PositionOk(s.consumer, s.consumer.t, s.tasks[s.consumer.t]);
    }
  }
}
