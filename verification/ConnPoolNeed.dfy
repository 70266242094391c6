/** The pool is never larger than the demand it has seen, and panics exactly at the reference limit. */
module ConnPoolNeed {
  import opened Wrappers
  import opened Arithmetic
  import opened ConnPool
  import opened ConnPoolSafety
  import opened ConnPoolRuns

  // A grow under way started from a size whose streams a reference within the peak had used up.
  predicate Needed(o: Options, peak: int, p: Pc) {
    && (p.Referenced? || p.ReadLocked? || p.Loaded? || p.WaitLock? ==> p.nextRef <= peak)
    && (p.Growing? ==> 0 <= p.filled <= p.increment <= p.base && p.base * o.maxConcurrentStreams < peak)
  }

  predicate Justified(o: Options, peak: int, s: State) {
    && (s.current <= o.maxIdle || s.current * o.maxConcurrentStreams < 2 * peak)
    && forall u :: 0 <= u < |s.sessions| ==> Needed(o, peak, s.sessions[u])
  }

  lemma GetIsJustified(o: Options, peak: int, s: State, t: nat, ok: bool, s': State)
    requires t < |s.sessions| && AdvanceGet(o, s, t, ok) == Some(s') && Needed(o, peak, s.sessions[t]) && s'.ref <= peak
    ensures Needed(o, peak, s'.sessions[t]) && s'.current == s.current
  {
  }

  lemma AtMostDouble(size: int, base: int, streams: nat)
    requires size <= 2 * base
    ensures size * streams <= 2 * (base * streams)
  {
    MulLe(size, 2 * base, streams);
    assert 2 * base * streams == 2 * (base * streams);
  }

  lemma GrowIsJustified(o: Options, peak: int, s: State, t: nat, ok: bool, s': State)
    requires Accepted(o) && t < |s.sessions| && AdvanceGrow(o, s, t, ok) == Some(s') && Needed(o, peak, s.sessions[t])
    requires s.current <= o.maxIdle || s.current * o.maxConcurrentStreams < 2 * peak
    requires o.maxIdle <= s.current
    ensures Needed(o, peak, s'.sessions[t])
    ensures s'.current <= o.maxIdle || s'.current * o.maxConcurrentStreams < 2 * peak
  {
    var p := s.sessions[t];
    if p.Growing? {
      GrowingIsJustified(o, peak, s, t, ok, s');
    } else if p.WaitLock? {
      GrowStartIsJustified(o, peak, s, t, ok, s');
    }
  }

  lemma GrowStartIsJustified(o: Options, peak: int, s: State, t: nat, ok: bool, s': State)
    requires Accepted(o) && t < |s.sessions| && AdvanceGrow(o, s, t, ok) == Some(s') && s.sessions[t].WaitLock?
    requires Needed(o, peak, s.sessions[t]) && o.maxIdle <= s.current
    ensures Needed(o, peak, s'.sessions[t]) && s'.current == s.current
  {
  }

  lemma GrowingIsJustified(o: Options, peak: int, s: State, t: nat, ok: bool, s': State)
    requires Accepted(o) && t < |s.sessions| && AdvanceGrow(o, s, t, ok) == Some(s') && s.sessions[t].Growing?
    requires Needed(o, peak, s.sessions[t])
    ensures Needed(o, peak, s'.sessions[t])
    ensures s'.current == s.current || s'.current * o.maxConcurrentStreams < 2 * peak
  {
    var p := s.sessions[t];
    AtMostDouble(p.base + p.filled, p.base, o.maxConcurrentStreams);
  }

  lemma CloseIsJustified(o: Options, peak: int, s: State, t: nat, ok: bool, s': State)
    requires t < |s.sessions| && AdvanceClose(o, s, t, ok) == Some(s') && Needed(o, peak, s.sessions[t])
    ensures Needed(o, peak, s'.sessions[t]) && s'.current == s.current
  {
  }

  lemma ShrinkIsJustified(o: Options, peak: int, s: State, t: nat, ok: bool, s': State)
    requires t < |s.sessions| && AdvanceShrink(o, s, t, ok) == Some(s') && Needed(o, peak, s.sessions[t])
    ensures Needed(o, peak, s'.sessions[t]) && (s'.current == s.current || s'.current == o.maxIdle)
  {
  }

  lemma AdvanceIsJustified(o: Options, peak: int, s: State, t: nat, ok: bool, s': State)
    requires Accepted(o) && t < |s.sessions| && Advance(o, s, t, ok) == Some(s')
    requires Justified(o, peak, s) && s'.ref <= peak && o.maxIdle <= s.current
    ensures Justified(o, peak, s')
  {
    var p := s.sessions[t];
    if p.WaitLock? || p.Growing? || p.Unlocking? || p.AfterGrow? {
      GrowIsJustified(o, peak, s, t, ok, s');
    } else if p.Open? || p.Dropped? || p.CloseTail? {
      CloseIsJustified(o, peak, s, t, ok, s');
    } else if p.WaitShrink? || p.ShrinkCheck? || p.ShrinkStore? || p.Deleting? || p.ShrinkUnlock? {
      ShrinkIsJustified(o, peak, s, t, ok, s');
    } else {
      GetIsJustified(o, peak, s, t, ok, s');
    }
  }

  /** Growth only follows demand: a pool above maxIdle has fewer streams than twice the most references that were
      ever out at once. A Get that finds under the lock that others have grown the pool enough does not grow it. */
  lemma {:induction false} GrowthFollowsDemand(o: Options, run: seq<State>, i: nat, peak: int)
    requires IsRun(o, run) && i < |run| && Working(run[i]) && forall k :: 0 <= k <= i ==> run[k].ref <= peak
    ensures Justified(o, peak, run[i])
    ensures run[i].current == o.maxIdle || run[i].current * o.maxConcurrentStreams < 2 * peak
  {
    if i > 0 {
      EarlierOpen(o, run, i - 1, i);
      GrowthFollowsDemand(o, run, i - 1, peak);
      SizeAndSlots(o, run, i - 1);
      assert StepAt(o, run, i - 1);
      var a :| Next(o, run[i - 1], a, run[i]);
      AdvanceIsJustified(o, peak, run[i - 1], a.t, a.ok, run[i]);
    }
    SizeAndSlots(o, run, i);
  }

  // Only the first step of a Get raises the reference count.
  lemma GetKeepsRef(o: Options, s: State, t: nat, ok: bool, s': State)
    requires t < |s.sessions| && AdvanceGet(o, s, t, ok) == Some(s')
    ensures if s.sessions[t].Idle? then s'.ref == s.ref + 1 && (s'.crashed <==> s.crashed || s'.ref == MAX_INT32)
            else s'.ref == s.ref
  {
  }

  lemma GrowKeepsRef(o: Options, s: State, t: nat, ok: bool, s': State)
    requires t < |s.sessions| && AdvanceGrow(o, s, t, ok) == Some(s')
    ensures s'.ref == s.ref
  {
  }

  lemma CloseKeepsRef(o: Options, s: State, t: nat, ok: bool, s': State)
    requires t < |s.sessions| && (AdvanceClose(o, s, t, ok) == Some(s') || AdvanceShrink(o, s, t, ok) == Some(s'))
    ensures s'.ref <= s.ref
  {
  }

  lemma StepKeepsRef(o: Options, s: State, t: nat, ok: bool, s': State)
    requires t < |s.sessions| && Advance(o, s, t, ok) == Some(s')
    ensures if s.sessions[t].Idle? then s'.ref == s.ref + 1 && (s'.crashed <==> s.crashed || s'.ref == MAX_INT32)
            else s'.ref <= s.ref
  {
    var p := s.sessions[t];
    if p.WaitLock? || p.Growing? || p.Unlocking? || p.AfterGrow? {
      GrowKeepsRef(o, s, t, ok, s');
    } else if HasHandle(p) {
      CloseKeepsRef(o, s, t, ok, s');
    } else {
      GetKeepsRef(o, s, t, ok, s');
    }
  }

  lemma {:induction false} RefStaysBelow(o: Options, run: seq<State>, i: nat)
    requires IsRun(o, run) && i < |run| && Working(run[i])
    ensures run[i].ref < MAX_INT32
  {
    if i > 0 {
      EarlierOpen(o, run, i - 1, i);
      RefStaysBelow(o, run, i - 1);
      assert StepAt(o, run, i - 1);
      var a :| Next(o, run[i - 1], a, run[i]);
      StepKeepsRef(o, run[i - 1], a.t, a.ok, run[i]);
    }
  }

  /** The exact panics before pool.Close: a step panics if and only if it is the first one of a Get, and takes the
      reference that reaches 2^31 - 1. */
  lemma PanicsExactlyOnOverflow(o: Options, run: seq<State>, i: nat, t: nat, ok: bool, s': State)
    requires IsRun(o, run) && i < |run| && Working(run[i])
    requires t < |run[i].sessions| && Advance(o, run[i], t, ok) == Some(s')
    ensures s'.crashed <==> run[i].sessions[t].Idle? && run[i].ref + 1 == 0x7FFF_FFFF
  {
    RefStaysBelow(o, run, i);
    StepKeepsRef(o, run[i], t, ok, s');
    if !run[i].sessions[t].Idle? {
      OnlyOverflow(o, run, i, t, ok, s');
    }
  }

  lemma OnlyOverflow(o: Options, run: seq<State>, i: nat, t: nat, ok: bool, s': State)
    requires IsRun(o, run) && i < |run| && Working(run[i])
    requires t < |run[i].sessions| && Advance(o, run[i], t, ok) == Some(s')
    ensures s'.crashed ==> s'.ref == MAX_INT32
  {
    RunKeeps(o, run, i);
    assert Next(o, run[i], Session(t, ok), s');
    NextKeeps(o, run[i], Session(t, ok), s');
  }

  /** What resetting a slot does, for every answer of closing its connection: the conn is detached in any case, and
      the slot is emptied unless closing reported an error. */
  lemma ResetDetaches(s: State, i: nat, closeOk: bool)
    requires i < |s.slots| && s.slots[i].Some? && s.slots[i].value < |s.conns|
    ensures var c := s.slots[i].value;
            var r := ResetSlot(s, i, closeOk);
            && !r.conns[c].open && !r.conns[c].attached && !r.conns[c].once
            && (r.slots[i].None? <==> closeOk || !s.conns[c].open)
            && forall j :: 0 <= j < |s.slots| && j != i ==> r.slots[j] == s.slots[j]
  {
  }

  /** What pool.Close leaves: every conn that was in a slot is detached and closed, and every slot is empty but those
      whose connection reported an error. */
  lemma CloseDetachesAll(s: State, kept: set<nat>, j: nat)
    requires j < |s.slots| && s.slots[j].Some? && s.slots[j].value < |s.conns|
    ensures var r, c := ClosePool(s, kept), s.slots[j].value;
            && |r.slots| == |s.slots| && (r.slots[j].None? <==> j !in kept)
            && !r.conns[c].open && !r.conns[c].attached && r.current == 0 && r.ref == 0 && r.closed
  {
  }
}
