/** A caller of DoTask that can go on does go on, and nobody is left behind when nothing moves any more. */
module TaskQueueProgress {
  import opened Wrappers
  import opened TaskQueue
  import opened TaskQueueSafety
  import opened TaskQueueRuns

  // Whether the first select of DoTask can send.
  predicate HasRoom(s: State) {
    |s.buffer| < s.capacity || (s.capacity == 0 && s.consumer.Receiving?)
  }

  /** A caller that still submits gets its task into an open queue with room, and then waits for its start. */
  lemma SubmitterCanInsert(s: State, t: nat)
    requires t < |s.tasks| && s.tasks[t].caller.Submitting? && !s.closed && HasRoom(s)
    ensures var r := CallerNext(s, t, false);
            && r.Some? && t < |r.value.tasks|
            && r.value.tasks[t].caller.AwaitStart? && r.value.inserted == s.inserted + [t]
  {
  }

  /** A caller whose task has been started goes on to wait for its completion. */
  lemma StartedCallerGoesOn(s: State, t: nat)
    requires t < |s.tasks| && s.tasks[t].caller.AwaitStart? && s.tasks[t].startCloses > 0
    ensures var r := CallerNext(s, t, false);
            r.Some? && t < |r.value.tasks| && r.value.tasks[t].caller.AwaitComplete?
  {
  }

  /** A caller whose task's handler has completed returns. */
  lemma CompletedCallerReturns(run: seq<State>, i: nat, t: nat)
    requires IsRun(run) && i < |run| && t < |run[i].tasks|
    requires run[i].tasks[t].caller.AwaitComplete? && run[i].tasks[t].handler.Completed?
    ensures var r := CallerNext(run[i], t, false);
            r.Some? && t < |r.value.tasks| && r.value.tasks[t].caller.Finished?
  {
    RunKeeps(run, i);
    assert TaskOk(run[i].kinds[t], run[i].tasks[t]);
  }

  /** A caller whose context has ended can always give up, in whatever phase it waits. */
  lemma EndedContextGivesUp(s: State, t: nat)
    requires t < |s.tasks| && s.tasks[t].ctxDone && !s.tasks[t].caller.Finished? && !s.tasks[t].caller.TimedOut?
    ensures var r := CallerNext(s, t, true);
            && r.Some? && t < |r.value.tasks|
            && r.value.tasks[t].caller == TimedOut(match s.tasks[t].caller
                                                   case Submitting => BeforeInsert
                                                   case AwaitStart => BeforeStart
                                                   case _ => BeforeComplete)
            && (r.value.tasks[t].expired <==> s.tasks[t].expired || s.tasks[t].caller.AwaitStart?)
  {
  }

  /** The consumer goes on to the next task exactly when the handler it waits for has completed or that task's context
      has ended: it does not wait for a handler that nobody waits for any more. */
  lemma ConsumerGoesOn(run: seq<State>, i: nat)
    requires IsRun(run) && i < |run| && run[i].consumer.Watching?
    ensures run[i].consumer.t < |run[i].tasks|
    ensures ConsumerNext(run[i])
            == if run[i].tasks[run[i].consumer.t].ctxDone || run[i].tasks[run[i].consumer.t].handler.Completed?
               then Some(run[i].(consumer := Receiving)) else None
  {
    RunKeeps(run, i);
    var t := run[i].consumer.t;
    assert TaskOk(run[i].kinds[t], run[i].tasks[t]);
  }

  /** A task that has expired by the time the consumer decides on it is skipped; any other is started. */
  lemma ExpiredIsSkipped(run: seq<State>, i: nat)
    requires IsRun(run) && i < |run| && run[i].consumer.Deciding?
    ensures run[i].consumer.t < |run[i].tasks| && ConsumerNext(run[i]).Some?
    ensures var t, s' := run[i].consumer.t, ConsumerNext(run[i]).value;
            && t < |s'.tasks| && (s'.tasks[t].place.Skipped? <==> run[i].tasks[t].caller == TimedOut(BeforeStart))
            && (s'.tasks[t].place.Accepted? <==> !s'.tasks[t].place.Skipped?)
  {
    RunKeeps(run, i);
    var t := run[i].consumer.t;
    assert TaskOk(run[i].kinds[t], run[i].tasks[t]);
  }

  // No caller, no handler and not the consumer can take a step.
  predicate Stuck(s: State) {
    && ConsumerNext(s).None?
    && (forall t :: 0 <= t < |s.tasks| ==> CallerNext(s, t, false).None? && CallerNext(s, t, true).None?)
    && (forall t :: 0 <= t < |s.tasks| ==> HandlerNext(s, t).None?)
  }

  lemma StuckConsumerIsIdle(run: seq<State>, i: nat)
    requires IsRun(run) && i < |run| && !run[i].crashed && Stuck(run[i])
    ensures run[i].buffer == [] && (run[i].consumer.Ended? || (run[i].consumer.Receiving? && !run[i].closed))
  {
    RunKeeps(run, i);
    var s := run[i];
    if !s.consumer.Ended? && !(s.consumer.Receiving? && s.buffer == [] && !s.closed) {
      ConsumerCanMove(run, i);
    }
  }

  // With an idle consumer and an empty buffer, what the task itself says about where its caller stands.
  lemma IdleCaller(s: State, t: nat)
    requires Inv(s) && t < |s.tasks| && s.buffer == [] && (s.consumer.Ended? || s.consumer.Receiving?)
    requires !s.tasks[t].caller.Submitting? && HandlerNext(s, t).None?
    requires Wait(s.tasks[t], false).None?
    ensures s.tasks[t].caller.Finished? || (s.tasks[t].caller.TimedOut? && s.kinds[t].Read?)
  {
    assert TaskOk(s.kinds[t], s.tasks[t]) && PositionOk(s.consumer, t, s.tasks[t]);
    if !s.tasks[t].place.Outside? {
      DecidedPlace(s, t);
    }
  }

  lemma DecidedPlace(s: State, t: nat)
    requires ListsOk(s) && t < |s.tasks| && s.buffer == [] && AtHand(s.consumer) == [] && !s.tasks[t].place.Outside?
    ensures s.tasks[t].place.Accepted? || s.tasks[t].place.Skipped?
  {
    assert t in s.inserted;
    var k :| 0 <= k < |s.inserted| && s.inserted[k] == t;
    assert s.inserted == Decided(s.decisions);
    assert s.decisions[k].t == t;
  }

  // In front of an idle consumer a caller that submits can send, or panics.
  lemma SubmitterMoves(s: State, t: nat)
    requires t < |s.tasks| && s.tasks[t].caller.Submitting? && s.buffer == [] && (s.closed || s.consumer.Receiving?)
    ensures CallerNext(s, t, false).Some?
  {
  }

  /** Nobody is left behind: when neither a caller nor the consumer nor a handler can take a step, every DoTask has
      returned, each one of a write because its handler has finished. */
  lemma StuckMeansServed(run: seq<State>, i: nat, t: nat)
    requires IsRun(run) && i < |run| && !run[i].crashed && Stuck(run[i]) && t < |run[i].tasks|
    ensures t < |run[i].kinds|
    ensures run[i].tasks[t].caller.Finished? || (run[i].tasks[t].caller.TimedOut? && run[i].kinds[t].Read?)
    ensures run[i].tasks[t].caller.Finished? ==> run[i].tasks[t].handler.Completed?
  {
    var s := run[i];
    RunKeeps(run, i);
    StuckConsumerIsIdle(run, i);
    if s.tasks[t].caller.Submitting? {
      SubmitterMoves(s, t);
    }
    assert CallerNext(s, t, false).None? && HandlerNext(s, t).None?;
    IdleCaller(s, t);
    assert TaskOk(s.kinds[t], s.tasks[t]);
  }
}
