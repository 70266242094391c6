/** Which Gets get a pooled connection and which a one-time one. */
module ConnPoolReuse {
  import opened Wrappers
  import opened ConnPool
  import opened ConnPoolSafety
  import opened ConnPoolRuns

  predicate HoldsOneTime(p: Pc) {
    HasHandle(p) && p.handle.OneTime?
  }

  // A Get that has read a full size and found every stream of it taken.
  predicate Exhausted(o: Options, n: int, seen: int) {
    seen == o.maxActive && n > o.maxActive * o.maxConcurrentStreams
  }

  // Where a Get that has read the size `seen` under the reference n can stand until its handle has been closed.
  predicate OneTimePath(p: Pc) {
    p.Dialing? || HoldsOneTime(p)
  }

  predicate PooledPath(p: Pc) {
    p.Picked? || p.WaitLock? || p.Growing? || p.Unlocking? || p.AfterGrow? || p.Failed?
    || (HasHandle(p) && !p.handle.OneTime?)
  }

  predicate Onward(o: Options, n: int, seen: int, p: Pc) {
    p == Loaded(n, seen) || (if Exhausted(o, n, seen) && !o.reuse then OneTimePath(p) else PooledPath(p))
  }

  // A read of zero can only come from a closed pool, and ends in an error.
  lemma OnwardGet(o: Options, s: State, t: nat, ok: bool, s': State, n: int, seen: int)
    requires Accepted(o) && t < |s.sessions| && AdvanceGet(o, s, t, ok) == Some(s') && !s'.crashed
    requires seen > 0 && Onward(o, n, seen, s.sessions[t])
    ensures Onward(o, n, seen, s'.sessions[t])
  {
    if s.sessions[t].Loaded? {
      Streams(o, seen);
    }
  }

  lemma Streams(o: Options, seen: int)
    requires Accepted(o)
    ensures seen == o.maxActive ==> seen * o.maxConcurrentStreams == o.maxActive * o.maxConcurrentStreams
  {
  }

  // A Close keeps its handle until it has ended.
  lemma KeepsHandle(o: Options, s: State, t: nat, ok: bool, s': State)
    requires t < |s.sessions| && HasHandle(s.sessions[t]) && Advance(o, s, t, ok) == Some(s')
    ensures s'.sessions[t].Idle? || (HasHandle(s'.sessions[t]) && s'.sessions[t].handle == s.sessions[t].handle)
  {
    var p := s.sessions[t];
    if p.Open? || p.Dropped? || p.CloseTail? {
      CloseKeepsHandle(o, s, t, ok, s');
    } else {
      ShrinkKeepsHandle(o, s, t, ok, s');
    }
  }

  lemma CloseKeepsHandle(o: Options, s: State, t: nat, ok: bool, s': State)
    requires t < |s.sessions| && HasHandle(s.sessions[t]) && AdvanceClose(o, s, t, ok) == Some(s')
    ensures s'.sessions[t].Idle? || (HasHandle(s'.sessions[t]) && s'.sessions[t].handle == s.sessions[t].handle)
  {
  }

  lemma ShrinkKeepsHandle(o: Options, s: State, t: nat, ok: bool, s': State)
    requires t < |s.sessions| && HasHandle(s.sessions[t]) && AdvanceShrink(o, s, t, ok) == Some(s')
    ensures s'.sessions[t].Idle? || (HasHandle(s'.sessions[t]) && s'.sessions[t].handle == s.sessions[t].handle)
  {
  }

  lemma OnwardStep(o: Options, s: State, t: nat, ok: bool, s': State, n: int, seen: int)
    requires Accepted(o) && t < |s.sessions| && Advance(o, s, t, ok) == Some(s') && !s'.crashed
    requires seen > 0 && Onward(o, n, seen, s.sessions[t])
    ensures s'.sessions[t].Idle? || Onward(o, n, seen, s'.sessions[t])
  {
    var p := s.sessions[t];
    if HasHandle(p) {
      KeepsHandle(o, s, t, ok, s');
    } else if p.Loaded? || p.Picked? || p.Dialing? {
      OnwardGet(o, s, t, ok, s', n, seen);
    } else {
      OnwardGrow(o, s, t, ok, s', n, seen);
    }
  }

  lemma OnwardGrow(o: Options, s: State, t: nat, ok: bool, s': State, n: int, seen: int)
    requires t < |s.sessions| && AdvanceGrow(o, s, t, ok) == Some(s') && Onward(o, n, seen, s.sessions[t])
    ensures Onward(o, n, seen, s'.sessions[t])
  {
  }

  lemma OnwardNext(o: Options, s: State, s': State, t: nat, n: int, seen: int)
    requires Accepted(o) && Steps(o, s, s') && !s'.crashed && t < |s.sessions| == |s'.sessions|
    requires seen > 0 && Onward(o, n, seen, s.sessions[t])
    ensures s'.sessions[t].Idle? || Onward(o, n, seen, s'.sessions[t])
  {
    var a :| Next(o, s, a, s');
    if a.Session? && a.t == t {
      OnwardStep(o, s, t, a.ok, s', n, seen);
    }
  }

  // Session t is inside a Get, holds its handle or is inside its Close from position i to position j.
  predicate InCall(run: seq<State>, i: nat, j: nat, t: nat)
    requires i <= j < |run|
  {
    forall k :: i <= k <= j ==> |run[k].sessions| == |run[0].sessions| > t && !run[k].sessions[t].Idle?
  }

  lemma {:induction false} StaysOnward(o: Options, run: seq<State>, i: nat, j: nat, t: nat, n: int, seen: int)
    requires IsRun(o, run) && i <= j < |run| && InCall(run, i, j, t) && !run[j].crashed
    requires run[i].sessions[t] == Loaded(n, seen) && seen > 0
    ensures t < |run[j].sessions| && Onward(o, n, seen, run[j].sessions[t])
  {
    if i < j {
      assert InCall(run, i, j - 1, t);
      EarlierOpen(o, run, j - 1, j);
      StaysOnward(o, run, i, j - 1, t, n, seen);
      StayOnward(o, run, j - 1, t, n, seen);
    }
  }

  lemma StayOnward(o: Options, run: seq<State>, k: nat, t: nat, n: int, seen: int)
    requires IsRun(o, run) && k + 1 < |run| && InCall(run, k, k + 1, t) && !run[k + 1].crashed
    requires seen > 0 && Onward(o, n, seen, run[k].sessions[t])
    ensures Onward(o, n, seen, run[k + 1].sessions[t])
  {
    assert StepAt(o, run, k);
    assert !run[k + 1].sessions[t].Idle?;
    OnwardNext(o, run[k], run[k + 1], t, n, seen);
  }

  /** The exact choice of Get: when it returns a handle, the handle is a one-time one if and only if reuse is off,
      the size it read was maxActive, and its reference was beyond all streams of a full pool. */
  lemma OneTimeExactlyWhenExhausted(o: Options, run: seq<State>, i: nat, j: nat, t: nat)
    requires IsRun(o, run) && i <= j < |run| && InCall(run, i, j, t) && !run[j].crashed
    requires run[i].sessions[t].Loaded? && run[i].sessions[t].seen > 0 && run[j].sessions[t].Open?
    ensures var p := run[i].sessions[t];
            run[j].sessions[t].handle.OneTime?
            <==> !o.reuse && p.seen == o.maxActive && p.nextRef > o.maxActive * o.maxConcurrentStreams
  {
    StaysOnward(o, run, i, j, t, run[i].sessions[t].nextRef, run[i].sessions[t].seen);
  }

  // ---------- with reuse ----------

  predicate NoOneTime(s: State) {
    forall u :: 0 <= u < |s.sessions| ==> !OneTimePath(s.sessions[u])
  }

  lemma ReuseGet(o: Options, s: State, t: nat, ok: bool, s': State)
    requires o.reuse && t < |s.sessions| && AdvanceGet(o, s, t, ok) == Some(s') && !OneTimePath(s.sessions[t])
    ensures !OneTimePath(s'.sessions[t])
  {
  }

  lemma ReuseGrow(o: Options, s: State, t: nat, ok: bool, s': State)
    requires t < |s.sessions| && AdvanceGrow(o, s, t, ok) == Some(s') && !OneTimePath(s.sessions[t])
    ensures !OneTimePath(s'.sessions[t])
  {
  }

  lemma ReuseStep(o: Options, s: State, t: nat, ok: bool, s': State)
    requires o.reuse && t < |s.sessions| && Advance(o, s, t, ok) == Some(s') && !OneTimePath(s.sessions[t])
    ensures !OneTimePath(s'.sessions[t])
  {
    var p := s.sessions[t];
    if p.WaitLock? || p.Growing? || p.Unlocking? || p.AfterGrow? {
      ReuseGrow(o, s, t, ok, s');
    } else if HasHandle(p) {
      KeepsHandle(o, s, t, ok, s');
    } else {
      ReuseGet(o, s, t, ok, s');
    }
  }

  /** With reuse on, no Get of any run ever dials a one-time connection. */
  lemma {:induction false} ReuseNeverDialsOneTime(o: Options, run: seq<State>, i: nat)
    requires IsRun(o, run) && i < |run| && o.reuse
    ensures NoOneTime(run[i])
  {
    if i > 0 {
      ReuseNeverDialsOneTime(o, run, i - 1);
      assert StepAt(o, run, i - 1);
      var a :| Next(o, run[i - 1], a, run[i]);
      if a.Session? {
        ReuseStep(o, run[i - 1], a.t, a.ok, run[i]);
      }
    }
  }
}
