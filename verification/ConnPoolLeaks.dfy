/** No pooled connection is ever left open outside the pool's slots, and no session waits for nobody. */
module ConnPoolLeaks {
  import opened Wrappers
  import opened ConnPool
  import opened ConnPoolSafety
  import opened ConnPoolRuns

  // An open conn that is not a one-time one.
  predicate IsPooled(c: Conn) {
    c.open && !c.once
  }

  predicate InSlot(s: State, c: nat, size: int) {
    exists j :: 0 <= j < |s.slots| && j < size && s.slots[j] == Some(c)
  }

  predicate NoLeak(s: State) {
    forall c :: 0 <= c < |s.conns| && IsPooled(s.conns[c]) ==> InSlot(s, c, |s.slots|)
  }

  lemma SameSlots(s: State, s': State)
    requires NoLeak(s) && s'.slots == s.slots && |s.conns| <= |s'.conns|
    requires forall c :: 0 <= c < |s'.conns| && IsPooled(s'.conns[c]) ==> c < |s.conns| && s'.conns[c] == s.conns[c]
    ensures NoLeak(s')
  {
    forall c | 0 <= c < |s'.conns| && IsPooled(s'.conns[c])
      ensures InSlot(s', c, |s'.slots|)
    {
      assert InSlot(s, c, |s.slots|);
    }
  }

  lemma ResetLeaksNothing(s: State, i: nat, closeOk: bool)
    requires NoLeak(s) && i < |s.slots|
    ensures NoLeak(ResetSlot(s, i, closeOk))
    ensures s.slots[i].Some? && s.slots[i].value < |s.conns| ==>
              !IsPooled(ResetSlot(s, i, closeOk).conns[s.slots[i].value])
  {
    var r := ResetSlot(s, i, closeOk);
    forall c | 0 <= c < |r.conns| && IsPooled(r.conns[c])
      ensures InSlot(r, c, |r.slots|)
    {
      var j :| 0 <= j < |s.slots| && j < |s.slots| && s.slots[j] == Some(c);
      assert r.slots[j] == Some(c);
    }
  }

  lemma FillLeaksNothing(s: State, i: nat, closeOk: bool)
    requires NoLeak(s) && i < |s.slots|
    ensures NoLeak(FillSlot(s, i, closeOk))
  {
    ResetLeaksNothing(s, i, closeOk);
    var r, r' := ResetSlot(s, i, closeOk), FillSlot(s, i, closeOk);
    forall c | 0 <= c < |r'.conns| && IsPooled(r'.conns[c])
      ensures InSlot(r', c, |r'.slots|)
    {
      if c == |r.conns| {
        assert r'.slots[i] == Some(c);
      } else {
        var j :| 0 <= j < |r.slots| && j < |r.slots| && r.slots[j] == Some(c);
        assert r'.slots[j] == Some(c);
      }
    }
  }

  lemma GetLeaksNothing(o: Options, s: State, t: nat, ok: bool, s': State)
    requires NoLeak(s) && t < |s.sessions| && AdvanceGet(o, s, t, ok) == Some(s')
    ensures NoLeak(s')
  {
    SameSlots(s, s');
  }

  lemma GrowLeaksNothing(o: Options, s: State, t: nat, ok: bool, s': State)
    requires NoLeak(s) && t < |s.sessions| && AdvanceGrow(o, s, t, ok) == Some(s')
    ensures NoLeak(s')
  {
    var p := s.sessions[t];
    if p.Growing? && p.filled < p.increment && !p.failed && ok && 0 <= p.base + p.filled < |s.slots| {
      FillLeaksNothing(s, p.base + p.filled, ok);
      SameSlots(FillSlot(s, p.base + p.filled, ok), s');
    } else {
      SameSlots(s, s');
    }
  }

  lemma CloseLeaksNothing(o: Options, s: State, t: nat, ok: bool, s': State)
    requires NoLeak(s) && t < |s.sessions| && AdvanceClose(o, s, t, ok) == Some(s')
    ensures NoLeak(s')
  {
    SameSlots(s, s');
  }

  lemma ShrinkLeaksNothing(o: Options, s: State, t: nat, ok: bool, s': State)
    requires NoLeak(s) && t < |s.sessions| && AdvanceShrink(o, s, t, ok) == Some(s')
    ensures NoLeak(s')
  {
    var p := s.sessions[t];
    if p.Deleting? && 0 <= p.next < o.maxActive && p.next < |s.slots| {
      ResetLeaksNothing(s, p.next, ok);
      SameSlots(ResetSlot(s, p.next, ok), s');
    } else {
      SameSlots(s, s');
    }
  }

  lemma AdvanceLeaksNothing(o: Options, s: State, t: nat, ok: bool, s': State)
    requires NoLeak(s) && t < |s.sessions| && Advance(o, s, t, ok) == Some(s')
    ensures NoLeak(s')
  {
    var p := s.sessions[t];
    if p.WaitLock? || p.Growing? || p.Unlocking? || p.AfterGrow? {
      GrowLeaksNothing(o, s, t, ok, s');
    } else if p.Open? || p.Dropped? || p.CloseTail? {
      CloseLeaksNothing(o, s, t, ok, s');
    } else if p.WaitShrink? || p.ShrinkCheck? || p.ShrinkStore? || p.Deleting? || p.ShrinkUnlock? {
      ShrinkLeaksNothing(o, s, t, ok, s');
    } else {
      GetLeaksNothing(o, s, t, ok, s');
    }
  }

  lemma CloseAllLeaksNothing(s: State, kept: set<nat>)
    requires NoLeak(s)
    ensures NoLeak(ClosePool(s, kept))
  {
    forall c | 0 <= c < |s.conns|
      ensures !IsPooled(ClosePool(s, kept).conns[c])
    {
      if IsPooled(s.conns[c]) {
        assert InSlot(s, c, |s.slots|);
      }
    }
  }

  /** In every run, also after a failed dial, a failed close of a connection, or pool.Close: a pooled connection that
      is open sits in a slot, so it can still be closed. */
  lemma {:induction false} NoConnectionLeaks(o: Options, run: seq<State>, i: nat)
    requires IsRun(o, run) && i < |run|
    ensures NoLeak(run[i])
  {
    if i == 0 {
      forall c | 0 <= c < |run[0].conns|
        ensures InSlot(run[0], c, |run[0].slots|)
      {
        assert run[0].slots[c] == Some(c);
      }
    } else {
      NoConnectionLeaks(o, run, i - 1);
      assert StepAt(o, run, i - 1);
      var a :| Next(o, run[i - 1], a, run[i]);
      match a
      case Session(t, ok) => AdvanceLeaksNothing(o, run[i - 1], t, ok, run[i]);
      case CloseAll(kept) => CloseAllLeaksNothing(run[i - 1], kept);
    }
  }

  /** While nobody grows or shrinks, the open pooled connections are exactly those in the slots below the size. */
  lemma LiveConnectionsAreTheSlots(o: Options, run: seq<State>, i: nat, c: nat)
    requires IsRun(o, run) && i < |run| && Working(run[i]) && run[i].writer.None? && c < |run[i].conns|
    ensures IsPooled(run[i].conns[c]) <==> InSlot(run[i], c, run[i].current)
  {
    var s := run[i];
    NoConnectionLeaks(o, run, i);
    NoStrayConnections(o, run, i);
    SizeAndSlots(o, run, i);
    if IsPooled(s.conns[c]) {
      assert InSlot(s, c, |s.slots|);
      var j :| 0 <= j < |s.slots| && j < |s.slots| && s.slots[j] == Some(c);
      assert j < s.current;
    }
    if InSlot(s, c, s.current) {
      var j :| 0 <= j < |s.slots| && j < s.current && s.slots[j] == Some(c);
      assert Live(s, s.slots[j]);
    }
  }

  // ---------- one-time connections ----------

  predicate HoldsConn(p: Pc, c: nat) {
    HasHandle(p) && p.handle.OneTime? && p.handle.conn == c
  }

  predicate Held(s: State, c: nat) {
    exists u :: 0 <= u < |s.sessions| && HoldsConn(s.sessions[u], c)
  }

  predicate OneTimeHeld(s: State) {
    forall c :: 0 <= c < |s.conns| && s.conns[c].once ==> Held(s, c)
  }

  // A step of session t that makes no conn a one-time one.
  lemma NoNewOneTime(s: State, t: nat, s': State)
    requires OneTimeHeld(s) && t < |s.sessions| == |s'.sessions| && s'.sessions == s.sessions[t := s'.sessions[t]]
    requires forall c :: 0 <= c < |s'.conns| && s'.conns[c].once ==> c < |s.conns| && s.conns[c].once
    requires forall c: nat :: c < |s'.conns| && s'.conns[c].once && HoldsConn(s.sessions[t], c) ==>
                                HoldsConn(s'.sessions[t], c)
    ensures OneTimeHeld(s')
  {
    forall c | 0 <= c < |s'.conns| && s'.conns[c].once
      ensures Held(s', c)
    {
      assert Held(s, c);
      var u :| 0 <= u < |s.sessions| && HoldsConn(s.sessions[u], c);
      assert HoldsConn(s'.sessions[u], c);
    }
  }

  lemma GetHolds(o: Options, s: State, t: nat, ok: bool, s': State)
    requires OneTimeHeld(s) && t < |s.sessions| && AdvanceGet(o, s, t, ok) == Some(s')
    ensures OneTimeHeld(s')
  {
    if s.sessions[t].Dialing? {
      forall c | 0 <= c < |s'.conns| && s'.conns[c].once
        ensures Held(s', c)
      {
        if c == |s.conns| {
          assert HoldsConn(s'.sessions[t], c);
        } else {
          assert Held(s, c);
          var u :| 0 <= u < |s.sessions| && HoldsConn(s.sessions[u], c);
          assert HoldsConn(s'.sessions[u], c);
        }
      }
    } else {
      NoNewOneTime(s, t, s');
    }
  }

  lemma GrowHolds(o: Options, s: State, t: nat, ok: bool, s': State)
    requires OneTimeHeld(s) && t < |s.sessions| && AdvanceGrow(o, s, t, ok) == Some(s')
    ensures OneTimeHeld(s')
  {
    NoNewOneTime(s, t, s');
  }

  lemma CloseHolds(o: Options, s: State, t: nat, ok: bool, s': State)
    requires OneTimeHeld(s) && t < |s.sessions| && AdvanceClose(o, s, t, ok) == Some(s')
    ensures OneTimeHeld(s')
  {
    NoNewOneTime(s, t, s');
  }

  lemma ShrinkHolds(o: Options, s: State, t: nat, ok: bool, s': State)
    requires OneTimeHeld(s) && t < |s.sessions| && AdvanceShrink(o, s, t, ok) == Some(s')
    ensures OneTimeHeld(s')
  {
    NoNewOneTime(s, t, s');
  }

  lemma AdvanceHolds(o: Options, s: State, t: nat, ok: bool, s': State)
    requires OneTimeHeld(s) && t < |s.sessions| && Advance(o, s, t, ok) == Some(s')
    ensures OneTimeHeld(s')
  {
    var p := s.sessions[t];
    if p.WaitLock? || p.Growing? || p.Unlocking? || p.AfterGrow? {
      GrowHolds(o, s, t, ok, s');
    } else if p.Open? || p.Dropped? || p.CloseTail? {
      CloseHolds(o, s, t, ok, s');
    } else if p.WaitShrink? || p.ShrinkCheck? || p.ShrinkStore? || p.Deleting? || p.ShrinkUnlock? {
      ShrinkHolds(o, s, t, ok, s');
    } else {
      GetHolds(o, s, t, ok, s');
    }
  }

  lemma CloseAllHolds(s: State, kept: set<nat>)
    requires OneTimeHeld(s)
    ensures OneTimeHeld(ClosePool(s, kept))
  {
    var s' := ClosePool(s, kept);
    forall c | 0 <= c < |s'.conns| && s'.conns[c].once
      ensures Held(s', c)
    {
      assert Held(s, c);
    }
  }

  /** A one-time connection is open only as long as the handle it was returned in: once that handle's Close has
      ended, the connection is closed. So every open connection is in a slot or in a handle somebody holds. */
  lemma {:induction false} NoOneTimeLeaks(o: Options, run: seq<State>, i: nat)
    requires IsRun(o, run) && i < |run|
    ensures OneTimeHeld(run[i])
    ensures forall c :: 0 <= c < |run[i].conns| && run[i].conns[c].open ==>
              InSlot(run[i], c, |run[i].slots|) || Held(run[i], c)
  {
    NoConnectionLeaks(o, run, i);
    if i > 0 {
      NoOneTimeLeaks(o, run, i - 1);
      assert StepAt(o, run, i - 1);
      var a :| Next(o, run[i - 1], a, run[i]);
      match a
      case Session(t, ok) => AdvanceHolds(o, run[i - 1], t, ok, run[i]);
      case CloseAll(kept) => CloseAllHolds(run[i - 1], kept);
    }
  }

  // ---------- no deadlock ----------

  ghost predicate CanMove(o: Options, s: State, u: nat) {
    u < |s.sessions| && exists ok :: Advance(o, s, u, ok).Some?
  }

  /** No deadlock: a session that has not failed and cannot take its next step waits for another that can. */
  lemma NobodyWaitsForNobody(o: Options, run: seq<State>, i: nat, t: nat)
    requires IsRun(o, run) && i < |run| && Working(run[i])
    requires t < |run[i].sessions| && !run[i].sessions[t].Failed? && !CanMove(o, run[i], t)
    ensures exists u: nat :: u != t && CanMove(o, run[i], u)
  {
    RunKeeps(o, run, i);
    var s := run[i];
    assert Advance(o, s, t, true).None?;
    if s.writer.Some? {
      HolderMoves(o, s, s.writer.value);
    } else {
      var u :| 0 <= u < |s.sessions| && s.sessions[u].ReadLocked?;
      assert Advance(o, s, u, true).Some?;
      assert CanMove(o, s, u);
    }
  }

  lemma HolderMoves(o: Options, s: State, u: nat)
    requires u < |s.sessions| && HoldsLock(s.sessions[u])
    ensures CanMove(o, s, u)
  {
    assert Advance(o, s, u, true).Some?;
  }
}
