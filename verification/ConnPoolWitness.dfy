/** A run in which one failed dial keeps the pool large after every handle has been closed. */
module ConnPoolWitness {
  import opened Wrappers
  import opened ConnPool
  import opened ConnPoolRuns

  ghost predicate Reachable(o: Options, s: State) {
    exists run :: IsRun(o, run) && run[|run| - 1] == s
  }

  lemma LongerRun(o: Options, run: seq<State>, s': State)
    requires IsRun(o, run) && Steps(o, run[|run| - 1], s')
    ensures IsRun(o, run + [s'])
  {
    var run' := run + [s'];
    forall i | 0 <= i < |run'| - 1
      ensures StepAt(o, run', i)
    {
      if i < |run| - 1 {
        assert StepAt(o, run, i);
      }
    }
  }

  lemma Extend(o: Options, s: State, s': State)
    requires Reachable(o, s) && Steps(o, s, s')
    ensures Reachable(o, s')
  {
    var run :| IsRun(o, run) && run[|run| - 1] == s;
    LongerRun(o, run, s');
    assert (run + [s'])[|run + [s']| - 1] == s';
  }

  lemma Again(s: State, t: nat, p: Pc, q: Pc)
    requires t < |s.sessions|
    ensures Move(Move(s, t, p), t, q) == Move(s, t, q)
  {
  }

  // One step of session t, from p to q, that turns the rest of the state into s', for each part of the machine.
  lemma GetStep(o: Options, s: State, t: nat, ok: bool, s': State)
    requires t < |s.sessions| && !s.crashed
    requires var p := s.sessions[t]; p.Idle? || p.Referenced? || p.ReadLocked? || p.Loaded? || p.Picked?
    requires AdvanceGet(o, s, t, ok) == Some(s')
    ensures Steps(o, s, s')
  {
    assert Next(o, s, Session(t, ok), s');
  }

  lemma GoGet(o: Options, s: State, t: nat, p: Pc, s': State, q: Pc)
    requires t < |s.sessions| && s'.sessions == s.sessions && !s.crashed && Reachable(o, Move(s, t, p))
    requires p.Idle? || p.Referenced? || p.ReadLocked? || p.Loaded? || p.Picked?
    requires AdvanceGet(o, Move(s, t, p), t, true) == Some(Move(Move(s', t, p), t, q))
    ensures Reachable(o, Move(s', t, q))
  {
    GetStep(o, Move(s, t, p), t, true, Move(Move(s', t, p), t, q));
    Extend(o, Move(s, t, p), Move(Move(s', t, p), t, q));
    Again(s', t, p, q);
  }

  lemma GrowStep(o: Options, s: State, t: nat, ok: bool, s': State)
    requires t < |s.sessions| && !s.crashed
    requires var p := s.sessions[t]; p.WaitLock? || p.Growing? || p.Unlocking? || p.AfterGrow?
    requires AdvanceGrow(o, s, t, ok) == Some(s')
    ensures Steps(o, s, s')
  {
    assert Next(o, s, Session(t, ok), s');
  }

  lemma GoGrow(o: Options, s: State, t: nat, p: Pc, ok: bool, s': State, q: Pc)
    requires t < |s.sessions| && s'.sessions == s.sessions && !s.crashed && Reachable(o, Move(s, t, p))
    requires p.WaitLock? || p.Growing? || p.Unlocking? || p.AfterGrow?
    requires AdvanceGrow(o, Move(s, t, p), t, ok) == Some(Move(Move(s', t, p), t, q))
    ensures Reachable(o, Move(s', t, q))
  {
    GrowStep(o, Move(s, t, p), t, ok, Move(Move(s', t, p), t, q));
    Extend(o, Move(s, t, p), Move(Move(s', t, p), t, q));
    Again(s', t, p, q);
  }

  lemma CloseStep(o: Options, s: State, t: nat, ok: bool, s': State)
    requires t < |s.sessions| && !s.crashed
    requires var p := s.sessions[t]; p.Open? || p.Dropped? || p.CloseTail?
    requires AdvanceClose(o, s, t, ok) == Some(s')
    ensures Steps(o, s, s')
  {
    assert Next(o, s, Session(t, ok), s');
  }

  lemma GoClose(o: Options, s: State, t: nat, p: Pc, s': State, q: Pc)
    requires t < |s.sessions| && s'.sessions == s.sessions && !s.crashed && Reachable(o, Move(s, t, p))
    requires p.Open? || p.Dropped? || p.CloseTail?
    requires AdvanceClose(o, Move(s, t, p), t, true) == Some(Move(Move(s', t, p), t, q))
    ensures Reachable(o, Move(s', t, q))
  {
    CloseStep(o, Move(s, t, p), t, true, Move(Move(s', t, p), t, q));
    Extend(o, Move(s, t, p), Move(Move(s', t, p), t, q));
    Again(s', t, p, q);
  }

  // A Get up to its read of the size.
  lemma Enter(o: Options, s: State, t: nat)
    requires t < |s.sessions| && !s.crashed && Reachable(o, Move(s, t, Idle))
    requires s.writer.None? && s.ref + 1 != MAX_INT32
    ensures Reachable(o, Move(s.(ref := s.ref + 1), t, Loaded(s.ref + 1, s.current)))
  {
    var n, counted := s.ref + 1, s.(ref := s.ref + 1);
    GoGet(o, s, t, Idle, counted, Referenced(n));
    GoGet(o, counted, t, Referenced(n), counted, ReadLocked(n));
    GoGet(o, counted, t, ReadLocked(n), counted, Loaded(n, s.current));
  }

  // A Get that takes a published connection.
  lemma Serve(o: Options, s: State, t: nat, p: Pc, size: nat, slot: nat, c: nat)
    requires t < |s.sessions| && !s.crashed && Reachable(o, Move(s, t, p)) && size > 0 && s.index + 1 < UINT32_MODULUS
    requires p == AfterGrow(size) || (p.Loaded? && p.seen == size && p.nextRef <= size * o.maxConcurrentStreams)
    requires slot == (s.index + 1) % size && slot < |s.slots| && s.slots[slot] == Some(c)
    ensures Reachable(o, Move(s.(index := s.index + 1), t, Open(Pooled(slot, c))))
  {
    PickSlot(o, s, t, p, size);
    var picked := s.(index := s.index + 1);
    GoGet(o, picked, t, Picked(slot), picked, Open(Pooled(slot, c)));
  }

  lemma PickSlot(o: Options, s: State, t: nat, p: Pc, size: nat)
    requires t < |s.sessions| && !s.crashed && Reachable(o, Move(s, t, p)) && size > 0 && s.index + 1 < UINT32_MODULUS
    requires p == AfterGrow(size) || (p.Loaded? && p.seen == size && p.nextRef <= size * o.maxConcurrentStreams)
    ensures Reachable(o, Move(s.(index := s.index + 1), t, Picked((s.index + 1) % size)))
  {
    var picked, slot := s.(index := s.index + 1), (s.index + 1) % size;
    if p.Loaded? {
      GoGet(o, s, t, p, picked, Picked(slot));
    } else {
      GoGrow(o, s, t, p, true, picked, Picked(slot));
    }
  }

  // A Get that has counted itself, finds the pool exhausted and takes the write lock.
  lemma BeginGrow(o: Options, s: State, t: nat)
    requires t < |s.sessions| && !s.crashed && Reachable(o, Move(s, t, Loaded(s.ref, s.current)))
    requires 0 < s.current < o.maxActive && s.ref > s.current * o.maxConcurrentStreams && s.writer.None?
    requires forall u :: 0 <= u < |s.sessions| ==> !s.sessions[u].ReadLocked?
    ensures Reachable(o, Move(s.(writer := Some(t)), t, Growing(s.current, Increment(o, s.current), 0, false)))
  {
    GoGet(o, s, t, Loaded(s.ref, s.current), s, WaitLock(s.ref));
    var growing := Growing(s.current, Increment(o, s.current), 0, false);
    GoGrow(o, s, t, WaitLock(s.ref), true, s.(writer := Some(t)), growing);
  }

  function WithConn(s: State, i: nat): State
    requires i < |s.slots|
  {
    s.(slots := s.slots[i := Some(|s.conns|)], conns := s.conns + [FRESH])
  }

  // The state around a Get that has grown the pool by one connection.
  function Grown(s: State, base: nat): State
    requires base < |s.slots|
  {
    WithConn(s, base).(current := base + 1, fullGrows := s.fullGrows + 1, writer := None)
  }

  lemma GrowByOne(o: Options, s: State, t: nat, base: nat)
    requires t < |s.sessions| && !s.crashed && Reachable(o, Move(s, t, Growing(base, 1, 0, false)))
    requires base < |s.slots| && s.slots[base].None?
    ensures Reachable(o, Move(Grown(s, base), t, AfterGrow(base + 1)))
  {
    DialOne(o, s, t, base);
    Publish(o, WithConn(s, base), t, base);
  }

  lemma DialOne(o: Options, s: State, t: nat, base: nat)
    requires t < |s.sessions| && !s.crashed && Reachable(o, Move(s, t, Growing(base, 1, 0, false)))
    requires base < |s.slots| && s.slots[base].None?
    ensures Reachable(o, Move(WithConn(s, base), t, Growing(base, 1, 1, false)))
  {
    GoGrow(o, s, t, Growing(base, 1, 0, false), true, WithConn(s, base), Growing(base, 1, 1, false));
  }

  lemma Publish(o: Options, s: State, t: nat, base: nat)
    requires t < |s.sessions| && !s.crashed && Reachable(o, Move(s, t, Growing(base, 1, 1, false)))
    ensures var published := s.(current := base + 1, fullGrows := s.fullGrows + 1);
            Reachable(o, Move(published.(writer := None), t, AfterGrow(base + 1)))
  {
    var published := s.(current := base + 1, fullGrows := s.fullGrows + 1);
    GoGrow(o, s, t, Growing(base, 1, 1, false), true, published, Unlocking(base + 1, false));
    GoGrow(o, published, t, Unlocking(base + 1, false), true, published.(writer := None), AfterGrow(base + 1));
  }

  // A grow whose only dial fails.
  lemma FailToGrow(o: Options, s: State, t: nat)
    requires t < |s.sessions| && !s.crashed && Reachable(o, Move(s, t, Growing(s.current, 1, 0, false)))
    requires 0 <= s.current < |s.slots|
    ensures Reachable(o, Move(s.(writer := None), t, Failed))
  {
    GoGrow(o, s, t, Growing(s.current, 1, 0, false), false, s, Growing(s.current, 1, 0, true));
    GoGrow(o, s, t, Growing(s.current, 1, 0, true), true, s, Unlocking(s.current, true));
    GoGrow(o, s, t, Unlocking(s.current, true), true, s.(writer := None), Failed);
  }

  // The Close of a pooled handle that does not drop the last reference.
  lemma Release(o: Options, s: State, t: nat, h: Handle)
    requires t < |s.sessions| && !s.crashed && Reachable(o, Move(s, t, Open(h))) && s.ref > 1
    requires h.Pooled? && h.conn < |s.conns| && s.conns[h.conn] == FRESH
    ensures Reachable(o, Move(s.(ref := s.ref - 1), t, Idle))
  {
    GoClose(o, s, t, Open(h), s.(ref := s.ref - 1), Dropped(h, s.ref - 1));
    EndClose(o, s.(ref := s.ref - 1), t, h);
  }

  lemma EndClose(o: Options, s: State, t: nat, h: Handle)
    requires t < |s.sessions| && !s.crashed && Reachable(o, Move(s, t, Dropped(h, s.ref))) && s.ref != 0
    requires h.Pooled? && h.conn < |s.conns| && s.conns[h.conn] == FRESH
    ensures Reachable(o, Move(s, t, Idle))
  {
    GoClose(o, s, t, Dropped(h, s.ref), s, CloseTail(h));
    GoClose(o, s, t, CloseTail(h), s, Idle);
  }

  const SMALL := Options(1, 3, 1, false)
  const HANDLE := Pooled(0, 0)

  // The pool of these options with one or two connections and the given sessions.
  function Pool(size: nat, index: nat, ref: nat, sessions: seq<Pc>): State
    requires 1 <= size <= 2
  {
    State(index, size, ref, None, if size == 1 then [Some(0), None, None] else [Some(0), Some(1), None],
          if size == 1 then [FRESH] else [FRESH, FRESH], sessions, size - 1, false, false, false)
  }

  lemma Fresh()
    ensures Reachable(SMALL, Pool(1, 0, 0, [Idle, Idle, Idle]))
  {
    var start := Pool(1, 0, 0, [Idle, Idle, Idle]);
    assert IsRun(SMALL, [start]) && [start][|[start]| - 1] == start;
  }

  lemma FirstGet()
    ensures Reachable(SMALL, Pool(1, 1, 1, [Open(HANDLE), Idle, Idle]))
  {
    Fresh();
    var start := Pool(1, 0, 0, [Idle, Idle, Idle]);
    assert Move(start, 0, Idle) == start;
    Enter(SMALL, start, 0);
    Serve(SMALL, start.(ref := 1), 0, Loaded(1, 1), 1, 0, 0);
    assert Move(start.(ref := 1, index := 1), 0, Open(HANDLE)) == Pool(1, 1, 1, [Open(HANDLE), Idle, Idle]);
  }

  lemma SecondGetLocks()
    ensures var s := Pool(1, 1, 2, [Open(HANDLE), Idle, Idle]).(writer := Some(1));
            Reachable(SMALL, Move(s, 1, Growing(1, 1, 0, false)))
  {
    FirstGet();
    var before := Pool(1, 1, 1, [Open(HANDLE), Idle, Idle]);
    assert Move(before, 1, Idle) == before;
    Enter(SMALL, before, 1);
    BeginGrow(SMALL, before.(ref := 2), 1);
  }

  lemma SecondGetGrows()
    ensures Reachable(SMALL, Pool(2, 1, 2, [Open(HANDLE), AfterGrow(2), Idle]))
  {
    SecondGetLocks();
    var s := Pool(1, 1, 2, [Open(HANDLE), Idle, Idle]).(writer := Some(1));
    GrowByOne(SMALL, s, 1, 1);
    GrownPool();
  }

  lemma GrownPool()
    ensures var s := Pool(1, 1, 2, [Open(HANDLE), Idle, Idle]).(writer := Some(1));
            Move(Grown(s, 1), 1, AfterGrow(2)) == Pool(2, 1, 2, [Open(HANDLE), AfterGrow(2), Idle])
  {
  }

  lemma SecondGet()
    ensures Reachable(SMALL, Pool(2, 2, 2, [Open(HANDLE), Open(HANDLE), Idle]))
  {
    SecondGetGrows();
    var grown := Pool(2, 1, 2, [Open(HANDLE), AfterGrow(2), Idle]);
    assert Move(grown, 1, AfterGrow(2)) == grown;
    Serve(SMALL, grown, 1, AfterGrow(2), 2, 0, 0);
    assert Move(grown.(index := 2), 1, Open(HANDLE)) == Pool(2, 2, 2, [Open(HANDLE), Open(HANDLE), Idle]);
  }

  lemma ThirdGetFails()
    ensures Reachable(SMALL, Pool(2, 2, 3, [Open(HANDLE), Open(HANDLE), Failed]))
  {
    SecondGet();
    var before := Pool(2, 2, 2, [Open(HANDLE), Open(HANDLE), Idle]);
    assert Move(before, 2, Idle) == before;
    Enter(SMALL, before, 2);
    var s := before.(ref := 3);
    BeginGrow(SMALL, s, 2);
    FailToGrow(SMALL, s.(writer := Some(2)), 2);
    assert Move(s, 2, Failed) == Pool(2, 2, 3, [Open(HANDLE), Open(HANDLE), Failed]);
  }

  lemma BothClose()
    ensures Reachable(SMALL, Pool(2, 2, 1, [Idle, Idle, Failed]))
  {
    ThirdGetFails();
    var all := Pool(2, 2, 3, [Open(HANDLE), Open(HANDLE), Failed]);
    assert Move(all, 0, Open(HANDLE)) == all;
    Release(SMALL, all, 0, HANDLE);
    var one := Pool(2, 2, 2, [Idle, Open(HANDLE), Failed]);
    assert Move(all.(ref := 2), 0, Idle) == one && Move(one, 1, Open(HANDLE)) == one;
    Release(SMALL, one, 1, HANDLE);
    assert Move(one.(ref := 1), 1, Idle) == Pool(2, 2, 1, [Idle, Idle, Failed]);
  }

  // No handle is open and no call is under way, yet the pool is large.
  predicate LargeAndUnused(o: Options, s: State) {
    && Working(s) && s.current > o.maxIdle
    && forall u :: 0 <= u < |s.sessions| ==> s.sessions[u].Idle? || s.sessions[u].Failed?
  }

  /** One failed dial is enough to keep a pool large: some run ends with every handle closed and no call under
      way, yet above maxIdle. It stays there (FailedGetStopsShrinking). */
  lemma FailedGetKeepsPoolLarge()
    ensures exists o, s :: Reachable(o, s) && LargeAndUnused(o, s)
  {
    BothClose();
    assert LargeAndUnused(SMALL, Pool(2, 2, 1, [Idle, Idle, Failed]));
  }
}
