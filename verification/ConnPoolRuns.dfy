/** The pool's guarantees over whole runs. */
module ConnPoolRuns {
  import opened Wrappers
  import opened Arithmetic
  import opened ConnPool
  import opened ConnPoolSafety

  lemma {:induction false} RunKeeps(o: Options, run: seq<State>, i: nat)
    requires IsRun(o, run) && i < |run|
    ensures Inv(o, run[i]) && |run[i].sessions| == |run[0].sessions|
    ensures i > 0 ==> !run[i - 1].crashed
  {
    if i == 0 {
      InitialKeeps(o, run[0]);
    } else {
      RunKeeps(o, run, i - 1);
      assert StepAt(o, run, i - 1);
      var a :| Next(o, run[i - 1], a, run[i]);
      NextKeeps(o, run[i - 1], a, run[i]);
    }
  }

  // A step that moves an open session closes its handle; a failed session never moves.
  lemma StepShape(o: Options, s: State, a: Action, s': State, t: nat)
    requires Next(o, s, a, s') && t < |s.sessions|
    ensures |s'.sessions| == |s.sessions|
    ensures s.sessions[t].Failed? ==> s'.sessions[t] == s.sessions[t]
    ensures s.sessions[t].Open? && s'.sessions[t].Open? ==> s'.sessions[t] == s.sessions[t]
  {
    if a.Session? && a.t == t && s.sessions[t].Open? {
      OpenMoves(o, s, t, a.ok);
    }
  }

  lemma OpenMoves(o: Options, s: State, t: nat, ok: bool)
    requires t < |s.sessions| && s.sessions[t].Open?
    ensures Advance(o, s, t, ok).Some?
    ensures var s' := Advance(o, s, t, ok).value; s'.sessions[t].Open? ==> s'.sessions[t] == s.sessions[t]
  {
  }

  lemma {:induction false} EarlierOpen(o: Options, run: seq<State>, i: nat, j: nat)
    requires IsRun(o, run) && i <= j < |run|
    ensures !run[j].closed ==> !run[i].closed
    ensures i < j ==> !run[i].crashed
  {
    if i < j {
      EarlierOpen(o, run, i, j - 1);
      assert StepAt(o, run, j - 1);
    }
  }

  predicate Working(s: State) {
    !s.closed && !s.crashed
  }

  /** A Get that ends without an error gives a handle, never a nil slot, and while the handle is open its
      connection is the one in the slot it was picked from and is alive. */
  lemma OpenHandleIsAlive(o: Options, run: seq<State>, i: nat, t: nat)
    requires IsRun(o, run) && i < |run| && Working(run[i])
    requires t < |run[i].sessions| && run[i].sessions[t].Open?
    ensures var s, h := run[i], run[i].sessions[t].handle;
            match h
            case NilHandle => false
            case Pooled(slot, c) => slot < |s.slots| && s.slots[slot] == Some(c) && c < |s.conns| && s.conns[c] == FRESH
            case OneTime(c, dialFailed) => c < |s.conns| && s.conns[c] == Conn(!dialFailed, true, true)
  {
    RunKeeps(o, run, i);
    assert SessionOk(o, run[i], run[i].sessions[t]);
    var h := run[i].sessions[t].handle;
    if h.Pooled? {
      assert Live(run[i], run[i].slots[h.slot]);
    }
  }

  /** From the moment Get returns it until its Close begins, a session's handle is one and the same object. */
  lemma {:induction false} HandleIsStable(o: Options, run: seq<State>, i: nat, j: nat, t: nat)
    requires IsRun(o, run) && i <= j < |run| && t < |run[0].sessions|
    requires forall k :: i <= k <= j ==> |run[k].sessions| == |run[0].sessions| && run[k].sessions[t].Open?
    ensures run[j].sessions[t] == run[i].sessions[t]
  {
    if i < j {
      HandleIsStable(o, run, i, j - 1, t);
      assert StepAt(o, run, j - 1);
      var a :| Next(o, run[j - 1], a, run[j]);
      StepShape(o, run[j - 1], a, run[j], t);
    }
  }

  /** Reference conservation: `ref` is the number of Gets in flight, of open handles (the one a failed one-time
      dial returned beside its error included) and of Gets that ended in an error without a handle. */
  lemma RefConservation(o: Options, run: seq<State>, i: nat)
    requires IsRun(o, run) && i < |run| && Working(run[i])
    ensures run[i].ref == Holders(run[i].sessions)
  {
    RunKeeps(o, run, i);
  }

  /** Before pool.Close the only panic is the deliberate one at a reference count of 2^31 - 1: the count
      never goes negative, no slot index is out of range, no modulus is zero, no nil conn is read. */
  lemma OnlyOverflowCrashes(o: Options, run: seq<State>, i: nat)
    requires IsRun(o, run) && i < |run| && !run[i].closed && run[i].crashed
    ensures run[i].ref == MAX_INT32
  {
    RunKeeps(o, run, i);
  }

  /** The size stays within the settings, every slot below it holds a live connection (also after a dial
      failed in the middle of a grow), and no two slots share one. */
  lemma SizeAndSlots(o: Options, run: seq<State>, i: nat)
    requires IsRun(o, run) && i < |run| && Working(run[i])
    ensures o.maxIdle <= run[i].current <= o.maxActive == |run[i].slots|
    ensures forall j :: 0 <= j < run[i].current ==> Live(run[i], run[i].slots[j])
    ensures forall j, k :: 0 <= j < k < run[i].current ==> run[i].slots[j] != run[i].slots[k]
  {
    RunKeeps(o, run, i);
  }

  /** While nobody grows or shrinks, no live connection is left outside the published size. */
  lemma NoStrayConnections(o: Options, run: seq<State>, i: nat)
    requires IsRun(o, run) && i < |run| && Working(run[i]) && run[i].writer.None?
    ensures forall j :: 0 <= j < |run[i].slots| && run[i].current <= j < o.maxActive ==> Dead(run[i], run[i].slots[j])
  {
    RunKeeps(o, run, i);
  }

  // Only the end of a grow and the start of a shrink publish a size.
  lemma WhoResizes(o: Options, s: State, t: nat, ok: bool, s': State)
    requires t < |s.sessions| && Advance(o, s, t, ok) == Some(s')
    requires !s.sessions[t].ShrinkStore? && !s.sessions[t].Growing?
    ensures s'.current == s.current
  {
  }

  /** The size only ever goes down when no handle is open, no Get has read the size, and no Get has failed. */
  lemma ShrinkOnlyWhenUnused(o: Options, s: State, a: Action, s': State)
    requires Accepted(o) && Inv(o, s) && Next(o, s, a, s') && Working(s) && !s'.closed
    requires s'.current < s.current
    ensures Quiet(s)
  {
    var p := s.sessions[a.t];
    assert SessionOk(o, s, p);
    if !p.ShrinkStore? && !p.Growing? {
      WhoResizes(o, s, a.t, a.ok, s');
    }
  }

  lemma FailedStaysFailed(o: Options, s: State, s': State, t: nat)
    requires Accepted(o) && Inv(o, s) && Steps(o, s, s') && Working(s) && !s'.closed
    requires t < |s.sessions| && s.sessions[t].Failed?
    ensures t < |s'.sessions| && s'.sessions[t].Failed? && s'.current >= s.current
  {
    var a :| Next(o, s, a, s');
    StepShape(o, s, a, s', t);
    if s'.current < s.current {
      ShrinkOnlyWhenUnused(o, s, a, s');
      assert PastRead(s.sessions[t]);
    }
  }

  /** A Get that failed keeps its reference forever, so from then on the pool never shrinks again. */
  lemma {:induction false} FailedGetStopsShrinking(o: Options, run: seq<State>, i: nat, j: nat, t: nat)
    requires IsRun(o, run) && i <= j < |run| && !run[j].closed
    requires t < |run[i].sessions| && run[i].sessions[t].Failed?
    ensures t < |run[j].sessions| && run[j].sessions[t].Failed?
    ensures run[j].current >= run[i].current
  {
    if i < j {
      EarlierOpen(o, run, j - 1, j);
      FailedGetStopsShrinking(o, run, i, j - 1, t);
      RunKeeps(o, run, j - 1);
      assert StepAt(o, run, j - 1);
      FailedStaysFailed(o, run[j - 1], run[j], t);
    }
  }

  /** g full grows since New or the last shrink give min(maxIdle * 2^g, maxActive), and maxIdle * 2^(g-1) is
      still below maxActive: maxActive is reached in at most ceil(log2(maxActive / maxIdle)) grows. */
  lemma GrowthLaw(o: Options, run: seq<State>, i: nat)
    requires IsRun(o, run) && i < |run| && Working(run[i]) && !run[i].partialGrow
    ensures var g := run[i].fullGrows;
            && run[i].current == Min(o.maxIdle * Pow2(g), o.maxActive)
            && (g > 0 ==> o.maxIdle * Pow2(g - 1) < o.maxActive)
  {
    RunKeeps(o, run, i);
  }

  /** After pool.Close no new handle appears: a Get that has read the size ends in ErrClosed. */
  lemma ClosedPoolGivesNothing(o: Options, run: seq<State>, i: nat, t: nat, ok: bool)
    requires IsRun(o, run) && i < |run| && run[i].closed && !run[i].crashed && t < |run[i].sessions|
    ensures run[i].current == 0
    ensures run[i].sessions[t].Loaded? ==> Advance(o, run[i], t, ok) == Some(Move(run[i], t, Failed))
    ensures var r := Advance(o, run[i], t, ok);
            r.Some? && r.value.sessions[t].Open? ==> run[i].sessions[t].Open?
  {
    RunKeeps(o, run, i);
    assert ClosedSession(run[i], run[i].sessions[t]);
  }

  /** The interface comment says that closing a handle after the pool was destroyed counts as an error.
      Closing a pooled one panics, as the conn has lost its pool, and it panics only then. */
  lemma LateCloseCrashes(o: Options, run: seq<State>, i: nat, t: nat, ok: bool)
    requires IsRun(o, run) && i < |run| && !run[i].crashed
    requires t < |run[i].sessions| && run[i].sessions[t].Open? && run[i].sessions[t].handle.Pooled?
    ensures Advance(o, run[i], t, ok).Some?
    ensures Advance(o, run[i], t, ok).value.crashed <==> run[i].closed
  {
    RunKeeps(o, run, i);
    if run[i].closed {
      assert ClosedSession(run[i], run[i].sessions[t]);
    } else {
      assert SessionOk(o, run[i], run[i].sessions[t]);
      OpenHandleIsAlive(o, run, i, t);
      HolderCounts(run[i], t);
    }
  }
}
