/** When the pool gives the connections beyond maxIdle back. */
module ConnPoolShrink {
  import opened Wrappers
  import opened Sequences
  import opened ConnPool
  import opened ConnPoolSafety
  import opened ConnPoolRuns

  // On the way to a shrink.
  predicate Returning(p: Pc) {
    (p.Dropped? && p.newRef == 0) || p.WaitShrink? || p.ShrinkCheck? || p.ShrinkStore?
  }

  // An unused pool that is too large has a Close under way that will shrink it.
  predicate GivesBack(o: Options, s: State) {
    s.ref == 0 && s.current > o.maxIdle ==> exists u :: 0 <= u < |s.sessions| && Returning(s.sessions[u])
  }

  // A step that leaves the other sessions alone, and the pool unused and too large only if it was.
  lemma OthersReturn(o: Options, s: State, t: nat, s': State)
    requires t < |s.sessions| == |s'.sessions| && s'.sessions == s.sessions[t := s'.sessions[t]]
    requires GivesBack(o, s) && (s'.ref == 0 && s'.current > o.maxIdle ==> s.ref == 0 && s.current > o.maxIdle)
    requires Returning(s.sessions[t]) && s'.ref == 0 && s'.current > o.maxIdle ==> Returning(s'.sessions[t])
    ensures GivesBack(o, s')
  {
    if s'.ref == 0 && s'.current > o.maxIdle {
      var u :| 0 <= u < |s.sessions| && Returning(s.sessions[u]);
      assert Returning(s'.sessions[u]);
    }
  }

  lemma GetGivesBack(o: Options, s: State, t: nat, ok: bool, s': State)
    requires GivesBack(o, s) && s.ref >= 0 && t < |s.sessions| && AdvanceGet(o, s, t, ok) == Some(s')
    ensures GivesBack(o, s')
  {
    OthersReturn(o, s, t, s');
  }

  // A Get that grows the pool holds a reference.
  lemma GrowGivesBack(o: Options, s: State, t: nat, ok: bool, s': State)
    requires GivesBack(o, s) && s.ref == Holders(s.sessions) && t < |s.sessions| && AdvanceGrow(o, s, t, ok) == Some(s')
    ensures GivesBack(o, s')
  {
    CountZero(s.sessions, HoldsRef);
    if s.sessions[t].WaitLock? {
      OthersReturn(o, s, t, s');
    }
  }

  // The last Close to drop its reference is on the way itself.
  lemma CloseGivesBack(o: Options, s: State, t: nat, ok: bool, s': State)
    requires GivesBack(o, s) && t < |s.sessions| && AdvanceClose(o, s, t, ok) == Some(s') && !s'.crashed
    ensures GivesBack(o, s')
  {
    if s.sessions[t].Open? {
      assert s'.ref == 0 ==> Returning(s'.sessions[t]);
    } else {
      OthersReturn(o, s, t, s');
    }
  }

  lemma ShrinkGivesBack(o: Options, s: State, t: nat, ok: bool, s': State)
    requires GivesBack(o, s) && t < |s.sessions| && AdvanceShrink(o, s, t, ok) == Some(s')
    ensures GivesBack(o, s')
  {
    if !s.sessions[t].ShrinkStore? {
      OthersReturn(o, s, t, s');
    }
  }

  lemma AdvanceGivesBack(o: Options, s: State, t: nat, ok: bool, s': State)
    requires GivesBack(o, s) && s.ref == Holders(s.sessions)
    requires t < |s.sessions| && Advance(o, s, t, ok) == Some(s') && !s'.crashed
    ensures GivesBack(o, s')
  {
    var p := s.sessions[t];
    if p.WaitLock? || p.Growing? || p.Unlocking? || p.AfterGrow? {
      GrowGivesBack(o, s, t, ok, s');
    } else if p.Open? || p.Dropped? || p.CloseTail? {
      CloseGivesBack(o, s, t, ok, s');
    } else if p.WaitShrink? || p.ShrinkCheck? || p.ShrinkStore? || p.Deleting? || p.ShrinkUnlock? {
      ShrinkGivesBack(o, s, t, ok, s');
    } else {
      GetGivesBack(o, s, t, ok, s');
    }
  }

  lemma {:induction false} RunGivesBack(o: Options, run: seq<State>, i: nat)
    requires IsRun(o, run) && i < |run| && Working(run[i])
    ensures GivesBack(o, run[i])
  {
    if i > 0 {
      EarlierOpen(o, run, i - 1, i);
      RunGivesBack(o, run, i - 1);
      RunKeeps(o, run, i - 1);
      assert StepAt(o, run, i - 1);
      var a :| Next(o, run[i - 1], a, run[i]);
      AdvanceGivesBack(o, run[i - 1], a.t, a.ok, run[i]);
    }
  }

  /** An unused pool with no shrink under way is back at maxIdle. */
  lemma UnusedPoolIsBackAtMaxIdle(o: Options, run: seq<State>, i: nat)
    requires IsRun(o, run) && i < |run| && Working(run[i]) && run[i].ref == 0
    requires forall u :: 0 <= u < |run[i].sessions| ==> !Returning(run[i].sessions[u])
    ensures run[i].current == o.maxIdle
  {
    RunGivesBack(o, run, i);
    SizeAndSlots(o, run, i);
  }

  /** In every run, however its sessions interleaved: once every Get has returned a handle and every handle has
      been closed, the pool has given back all connections beyond maxIdle. */
  lemma IdlePoolIsBackAtMaxIdle(o: Options, run: seq<State>, i: nat)
    requires IsRun(o, run) && i < |run| && Working(run[i])
    requires forall u :: 0 <= u < |run[i].sessions| ==> run[i].sessions[u].Idle?
    ensures run[i].current == o.maxIdle
  {
    RefConservation(o, run, i);
    CountZero(run[i].sessions, HoldsRef);
    UnusedPoolIsBackAtMaxIdle(o, run, i);
  }
}
