/** What every interleaving of Gets, handle closes, grows and shrinks keeps. */
module ConnPoolSafety {
  import opened Wrappers
  import opened Sequences
  import opened Arithmetic
  import opened ConnPool

  // ---------- reference counting ----------

  // The sessions that own one unit of `ref`: a Get from its first operation on, an open handle, and a
  // Get that ended in an error without a handle (it never gives its reference back). A one-time Get whose
  // dial failed returns a handle beside its error and counts as an open handle.
  predicate HoldsRef(p: Pc) {
    p.Referenced? || p.ReadLocked? || p.Loaded? || p.Picked? || p.Dialing? || p.WaitLock? || p.Growing?
    || p.Unlocking? || p.AfterGrow? || p.Open? || p.Failed?
  }

  function Holders(ss: seq<Pc>): nat {
    Count(ss, HoldsRef)
  }

  // ---------- the invariant ----------

  predicate HoldsLock(p: Pc) {
    p.Growing? || p.Unlocking? || p.ShrinkCheck? || p.ShrinkStore? || p.Deleting? || p.ShrinkUnlock?
  }

  // Past the read of `current` and still counted.
  predicate PastRead(p: Pc) {
    HoldsRef(p) && !p.Referenced?
  }

  predicate Quiet(s: State) {
    forall u :: 0 <= u < |s.sessions| ==> !PastRead(s.sessions[u])
  }

  predicate Live(s: State, slot: Option<nat>) {
    slot.Some? && slot.value < |s.conns| && s.conns[slot.value] == FRESH
  }

  predicate Dead(s: State, slot: Option<nat>) {
    slot.Some? ==> slot.value < |s.conns| && s.conns[slot.value] == RESET
  }

  predicate LiveRange(s: State, lo: int, hi: int)
    requires 0 <= lo && hi <= |s.slots|
  {
    forall j :: lo <= j < hi ==> Live(s, s.slots[j])
  }

  predicate DeadRange(s: State, lo: int, hi: int)
    requires 0 <= lo && hi <= |s.slots|
  {
    forall j :: lo <= j < hi ==> Dead(s, s.slots[j])
  }

  predicate SlotsOk(o: Options, s: State)
    requires Accepted(o)
  {
    && |s.slots| == o.maxActive
    && o.maxIdle <= s.current <= o.maxActive
    && (forall j :: 0 <= j < |s.slots| && s.slots[j].Some? ==>
                      s.slots[j].value < |s.conns| && !s.conns[s.slots[j].value].once)
    && (forall i, j :: 0 <= i < j < |s.slots| && s.slots[i].Some? ==> s.slots[i] != s.slots[j])
    && LiveRange(s, 0, s.current)
  }

  predicate LockOk(s: State) {
    && (s.writer.Some? ==> s.writer.value < |s.sessions| && HoldsLock(s.sessions[s.writer.value]))
    && (forall u :: 0 <= u < |s.sessions| && HoldsLock(s.sessions[u]) ==> s.writer == Some(u))
    && (s.writer.Some? ==> forall u :: 0 <= u < |s.sessions| ==> !s.sessions[u].ReadLocked?)
  }

  // Slots at and above the published size hold nothing alive, except where a grow or a shrink is at work.
  predicate SpareOk(o: Options, s: State)
    requires Accepted(o) && SlotsOk(o, s) && LockOk(s)
  {
    var p := if s.writer.Some? then s.sessions[s.writer.value] else Idle;
    if p.Growing? then p.base >= 0 && DeadRange(s, p.base + p.filled, o.maxActive)
    else if p.Deleting? then o.maxIdle <= p.next <= o.maxActive && DeadRange(s, o.maxIdle, p.next)
    else DeadRange(s, s.current, o.maxActive)
  }

  // While a shrink is at work, no session is past its read of the size.
  predicate QuietOk(s: State) {
    forall u :: 0 <= u < |s.sessions| && (s.sessions[u].ShrinkStore? || s.sessions[u].Deleting?) ==> Quiet(s)
  }

  predicate HandleKnown(s: State, h: Handle) {
    match h
    case NilHandle => false
    case Pooled(_, c) => c < |s.conns| && !s.conns[c].once
    case OneTime(c, failed) => c < |s.conns| && s.conns[c] == Conn(!failed, true, true)
  }

  // An open pooled handle: its connection still sits in the slot it was read from.
  predicate HandleOpen(s: State, h: Handle) {
    && HandleKnown(s, h)
    && (h.Pooled? ==> h.slot < s.current && h.slot < |s.slots| && s.slots[h.slot] == Some(h.conn))
  }

  predicate HasHandle(p: Pc) {
    p.Open? || p.Dropped? || p.WaitShrink? || p.ShrinkCheck? || p.ShrinkStore? || p.Deleting? || p.ShrinkUnlock?
    || p.CloseTail?
  }

  predicate SessionOk(o: Options, s: State, p: Pc)
    requires Accepted(o) && SlotsOk(o, s)
  {
    && (HasHandle(p) ==> HandleKnown(s, p.handle))
    && (p.Open? ==> HandleOpen(s, p.handle))
    && (p.Loaded? || p.AfterGrow? ==> o.maxIdle <= p.seen <= s.current)
    && (p.Picked? ==> p.slot < s.current)
    && (p.Unlocking? ==> p.seen == s.current)
    && (p.Growing? ==>
          && p.base == s.current && p.base < o.maxActive && p.increment == Increment(o, p.base)
          && p.filled <= p.increment && (p.failed ==> p.filled < p.increment)
          && LiveRange(s, p.base, p.base + p.filled))
    && (p.Deleting? ==> s.current == o.maxIdle)
  }

  predicate OwnersOk(s: State) {
    forall u, v :: 0 <= u < v < |s.sessions| && HasHandle(s.sessions[u]) && HasHandle(s.sessions[v])
                   && s.sessions[u].handle.OneTime? && s.sessions[v].handle.OneTime?
                   ==> s.sessions[u].handle.conn != s.sessions[v].handle.conn
  }

  // With g full grows since the last shrink and no interrupted one, the size is min(maxIdle * 2^g, maxActive).
  predicate GrowthOk(o: Options, s: State) {
    !s.partialGrow ==>
      && s.current == Min(o.maxIdle * Pow2(s.fullGrows), o.maxActive)
      && (s.fullGrows > 0 ==> o.maxIdle * Pow2(s.fullGrows - 1) < o.maxActive)
  }

  predicate SessionsOk(o: Options, s: State)
    requires Accepted(o) && SlotsOk(o, s)
  {
    forall u :: 0 <= u < |s.sessions| ==> SessionOk(o, s, s.sessions[u])
  }

  predicate RunningOk(o: Options, s: State)
    requires Accepted(o)
  {
    && SlotsOk(o, s)
    && LockOk(s)
    && SpareOk(o, s)
    && SessionsOk(o, s)
    && QuietOk(s)
    && OwnersOk(s)
    && s.ref == Holders(s.sessions)
    && GrowthOk(o, s)
  }

  // After pool.Close: nothing is alive in the pool, and a pooled handle's conn is detached.
  predicate ClosedSession(s: State, p: Pc) {
    match p
    case Idle => true
    case Referenced(_) => true
    case ReadLocked(_) => true
    case Loaded(_, seen) => seen == 0
    case Failed => true
    case Open(h) => (h.Pooled? ==> h.conn < |s.conns| && s.conns[h.conn] == RESET)
    case Dropped(_, _) => true
    case CloseTail(_) => true
    case _ => false
  }

  predicate ClosedOk(o: Options, s: State) {
    && s.current == 0 && s.writer.None?
    && forall u :: 0 <= u < |s.sessions| ==> ClosedSession(s, s.sessions[u])
  }

  predicate Inv(o: Options, s: State)
    requires Accepted(o)
  {
    if s.crashed then s.closed || s.ref == MAX_INT32
    else if s.closed then ClosedOk(o, s)
    else RunningOk(o, s)
  }

  // ---------- every step keeps it ----------

  // Two states that differ only in program counters, the counters `index` and `ref`, and the lock.
  predicate SameCore(s: State, s': State) {
    && s'.slots == s.slots && s'.conns == s.conns && s'.current == s.current
    && s'.fullGrows == s.fullGrows && s'.partialGrow == s.partialGrow
    && s'.closed == s.closed && s'.crashed == s.crashed
    && |s'.sessions| == |s.sessions|
  }

  predicate SameHandle(p: Pc, p': Pc) {
    HasHandle(p') && p'.handle.OneTime? ==> HasHandle(p) && p'.handle == p.handle
  }

  lemma SessionFrame(o: Options, s: State, s': State, p: Pc)
    requires Accepted(o) && SlotsOk(o, s) && SameCore(s, s') && SessionOk(o, s, p)
    ensures SlotsOk(o, s') && SessionOk(o, s', p)
  {
  }

  lemma MoveSessions(o: Options, s: State, t: nat, s': State)
    requires Accepted(o) && SlotsOk(o, s) && SessionsOk(o, s) && SameCore(s, s')
    requires t < |s.sessions| && s'.sessions == s.sessions[t := s'.sessions[t]]
    requires SessionOk(o, s, s'.sessions[t])
    ensures SlotsOk(o, s') && SessionsOk(o, s')
  {
    forall u | 0 <= u < |s'.sessions| ensures SessionOk(o, s', s'.sessions[u]) {
      SessionFrame(o, s, s', s'.sessions[u]);
    }
  }

  lemma MoveOwners(s: State, t: nat, s': State)
    requires OwnersOk(s) && t < |s.sessions| && |s'.sessions| == |s.sessions|
    requires s'.sessions == s.sessions[t := s'.sessions[t]] && SameHandle(s.sessions[t], s'.sessions[t])
    ensures OwnersOk(s')
  {
  }

  // A step that takes or gives no lock keeps the lock's bookkeeping and the quiet of a running shrink.
  lemma MoveLock(s: State, t: nat, s': State)
    requires LockOk(s) && QuietOk(s) && s'.writer == s.writer
    requires t < |s.sessions| && |s'.sessions| == |s.sessions| && s'.sessions == s.sessions[t := s'.sessions[t]]
    requires var p, p' := s.sessions[t], s'.sessions[t];
             && HoldsLock(p') == HoldsLock(p) && (p'.ReadLocked? ==> s.writer.None?)
             && (PastRead(p') ==> PastRead(p) || s.writer.None?)
             && ((p'.ShrinkStore? || p'.Deleting?) ==> p.ShrinkStore? || p.Deleting?)
    ensures LockOk(s') && QuietOk(s')
  {
  }

  // The same for the reference count.
  lemma MoveRef(s: State, t: nat, s': State)
    requires s.ref == Holders(s.sessions)
    requires t < |s.sessions| && |s'.sessions| == |s.sessions| && s'.sessions == s.sessions[t := s'.sessions[t]]
    requires s'.ref == s.ref + (if HoldsRef(s'.sessions[t]) then 1 else 0) - (if HoldsRef(s.sessions[t]) then 1 else 0)
    ensures s'.ref == Holders(s'.sessions)
  {
    CountUpdate(s.sessions, HoldsRef, t, s'.sessions[t]);
  }

  // A step of a session outside the critical section.
  lemma FreeMove(o: Options, s: State, t: nat, s': State)
    requires Accepted(o) && RunningOk(o, s) && SameCore(s, s') && s'.writer == s.writer
    requires t < |s.sessions| && s'.sessions == s.sessions[t := s'.sessions[t]]
    requires var p, p' := s.sessions[t], s'.sessions[t];
             && !HoldsLock(p) && !HoldsLock(p') && SessionOk(o, s, p') && SameHandle(p, p')
             && (p'.ReadLocked? ==> s.writer.None?)
             && (PastRead(p') ==> PastRead(p) || s.writer.None?)
             && s'.ref == s.ref + (if HoldsRef(p') then 1 else 0) - (if HoldsRef(p) then 1 else 0)
    ensures RunningOk(o, s')
  {
    MoveSessions(o, s, t, s');
    MoveOwners(s, t, s');
    MoveLock(s, t, s');
    MoveRef(s, t, s');
  }

  // Taking the free write lock.
  lemma AcquireMove(o: Options, s: State, t: nat, s': State)
    requires Accepted(o) && RunningOk(o, s) && SameCore(s, s') && LockFree(s) && s'.writer == Some(t)
    requires t < |s.sessions| && s'.sessions == s.sessions[t := s'.sessions[t]]
    requires var p, p' := s.sessions[t], s'.sessions[t];
             && !p.ReadLocked? && HoldsLock(p') && SessionOk(o, s, p') && SameHandle(p, p')
             && !p'.ShrinkStore? && !p'.Deleting? && (p'.Growing? ==> p'.filled == 0 && p'.base == s.current)
             && s'.ref == s.ref && HoldsRef(p') == HoldsRef(p)
    ensures RunningOk(o, s')
  {
    MoveSessions(o, s, t, s');
    MoveOwners(s, t, s');
    CountUpdate(s.sessions, HoldsRef, t, s'.sessions[t]);
    assert LockOk(s');
  }

  // Giving the lock back, from a state where the spare slots are dead again.
  lemma ReleaseMove(o: Options, s: State, t: nat, s': State)
    requires Accepted(o) && RunningOk(o, s) && SameCore(s, s') && s'.writer == None
    requires t < |s.sessions| && s'.sessions == s.sessions[t := s'.sessions[t]]
    requires var p, p' := s.sessions[t], s'.sessions[t];
             && (p.Unlocking? || p.ShrinkUnlock?) && !HoldsLock(p') && !p'.ReadLocked?
             && SessionOk(o, s, p') && SameHandle(p, p')
             && s'.ref == s.ref && HoldsRef(p') == HoldsRef(p)
    ensures RunningOk(o, s')
  {
    MoveSessions(o, s, t, s');
    MoveOwners(s, t, s');
    CountUpdate(s.sessions, HoldsRef, t, s'.sessions[t]);
    assert LockOk(s');
  }

  lemma BeginStepKeeps(o: Options, s: State, t: nat, ok: bool, s': State)
    requires Accepted(o) && RunningOk(o, s) && !s.crashed && !s.closed
    requires t < |s.sessions| && Advance(o, s, t, ok) == Some(s')
    requires s.sessions[t].Idle? || s.sessions[t].Referenced? || s.sessions[t].ReadLocked?
    ensures Inv(o, s')
  {
    assert SessionOk(o, s, s.sessions[t]);
    if !s'.crashed {
      FreeMove(o, s, t, s');
    }
  }

  lemma ChooseStepKeeps(o: Options, s: State, t: nat, ok: bool, s': State)
    requires Accepted(o) && RunningOk(o, s) && !s.crashed && !s.closed
    requires t < |s.sessions| && Advance(o, s, t, ok) == Some(s')
    requires s.sessions[t].Loaded?
    ensures Inv(o, s')
  {
    assert SessionOk(o, s, s.sessions[t]);
    if !s'.crashed {
      FreeMove(o, s, t, s');
    }
  }

  lemma SlotReadKeeps(o: Options, s: State, t: nat, ok: bool, s': State)
    requires Accepted(o) && RunningOk(o, s) && !s.crashed && !s.closed
    requires t < |s.sessions| && Advance(o, s, t, ok) == Some(s')
    requires s.sessions[t].Picked?
    ensures Inv(o, s')
  {
    var slot := s.sessions[t].slot;
    assert SessionOk(o, s, s.sessions[t]) && Live(s, s.slots[slot]);
    assert s'.sessions[t] == Open(Pooled(slot, s.slots[slot].value));
    assert SessionOk(o, s, s'.sessions[t]);
    FreeMove(o, s, t, s');
  }

  lemma PickStepKeeps(o: Options, s: State, t: nat, ok: bool, s': State)
    requires Accepted(o) && RunningOk(o, s) && !s.crashed && !s.closed
    requires t < |s.sessions| && Advance(o, s, t, ok) == Some(s')
    requires s.sessions[t].AfterGrow?
    ensures Inv(o, s')
  {
    assert SessionOk(o, s, s.sessions[t]);
    FreeMove(o, s, t, s');
  }

  lemma LockStepKeeps(o: Options, s: State, t: nat, ok: bool, s': State)
    requires Accepted(o) && RunningOk(o, s) && !s.crashed && !s.closed
    requires t < |s.sessions| && Advance(o, s, t, ok) == Some(s')
    requires var p := s.sessions[t]; p.WaitLock? || p.WaitShrink? || p.Unlocking? || p.ShrinkUnlock?
    ensures Inv(o, s')
  {
    assert SessionOk(o, s, s.sessions[t]);
    if s.sessions[t].WaitLock? || s.sessions[t].WaitShrink? {
      AcquireMove(o, s, t, s');
    } else {
      ReleaseMove(o, s, t, s');
    }
  }

  lemma DropStepKeeps(o: Options, s: State, t: nat, ok: bool, s': State)
    requires Accepted(o) && RunningOk(o, s) && !s.crashed && !s.closed
    requires t < |s.sessions| && Advance(o, s, t, ok) == Some(s')
    requires s.sessions[t].Open? || s.sessions[t].Dropped?
    ensures Inv(o, s')
  {
    assert SessionOk(o, s, s.sessions[t]);
    if s.sessions[t].Open? {
      HolderCounts(s, t);
    }
    FreeMove(o, s, t, s');
  }

  lemma HolderCounts(s: State, t: nat)
    requires t < |s.sessions| && HoldsRef(s.sessions[t])
    ensures Holders(s.sessions) > 0
  {
    CountZero(s.sessions, HoldsRef);
  }

  // ---------- steps that change slots or conns ----------

  // A fresh conn object disturbs nothing.
  lemma AddConnFrame(o: Options, s: State, s': State, c: Conn, p: Pc)
    requires Accepted(o) && SlotsOk(o, s) && SessionOk(o, s, p)
    requires s'.conns == s.conns + [c] && s'.slots == s.slots && s'.current == s.current
    ensures SlotsOk(o, s') && SessionOk(o, s', p)
  {
  }

  lemma AddConnSessions(o: Options, s: State, t: nat, s': State, c: Conn)
    requires Accepted(o) && SlotsOk(o, s) && SessionsOk(o, s)
    requires s'.conns == s.conns + [c] && s'.slots == s.slots && s'.current == s.current
    requires t < |s.sessions| && |s'.sessions| == |s.sessions| && s'.sessions == s.sessions[t := s'.sessions[t]]
    requires s'.sessions[t] == Open(OneTime(|s.conns|, !c.open)) && c.attached && c.once
    ensures SlotsOk(o, s') && SessionsOk(o, s')
  {
    AddConnFrame(o, s, s', c, Idle);
    forall u | 0 <= u < |s'.sessions| ensures SessionOk(o, s', s'.sessions[u]) {
      if u != t {
        AddConnFrame(o, s, s', c, s.sessions[u]);
      }
    }
  }

  lemma AddConnOwners(o: Options, s: State, t: nat, s': State)
    requires Accepted(o) && SlotsOk(o, s) && SessionsOk(o, s) && OwnersOk(s)
    requires t < |s.sessions| && |s'.sessions| == |s.sessions| && s'.sessions == s.sessions[t := s'.sessions[t]]
    requires s'.sessions[t].Open? && s'.sessions[t].handle.OneTime? && s'.sessions[t].handle.conn == |s.conns|
    ensures OwnersOk(s')
  {
    forall u | 0 <= u < |s.sessions| && HasHandle(s.sessions[u])
      ensures HandleKnown(s, s.sessions[u].handle)
    {
      assert SessionOk(o, s, s.sessions[u]);
    }
  }

  lemma DialStepKeeps(o: Options, s: State, t: nat, ok: bool, s': State)
    requires Accepted(o) && RunningOk(o, s) && !s.crashed && !s.closed
    requires t < |s.sessions| && Advance(o, s, t, ok) == Some(s')
    requires s.sessions[t].Dialing?
    ensures Inv(o, s')
  {
    AddConnSessions(o, s, t, s', Conn(ok, true, true));
    AddConnOwners(o, s, t, s');
    MoveLock(s, t, s');
    MoveRef(s, t, s');
  }

  // Emptying a one-time conn that no other session and no slot refers to.
  lemma OneTimeResetSlots(o: Options, s: State, s': State, c: nat)
    requires Accepted(o) && SlotsOk(o, s) && c < |s.conns| && s.conns[c].once
    requires s'.conns == s.conns[c := RESET] && s'.slots == s.slots && s'.current == s.current
    ensures SlotsOk(o, s')
  {
  }

  lemma OneTimeResetFrame(o: Options, s: State, s': State, c: nat, p: Pc)
    requires Accepted(o) && SlotsOk(o, s) && SlotsOk(o, s') && SessionOk(o, s, p)
    requires c < |s.conns| && s.conns[c].once
    requires s'.conns == s.conns[c := RESET] && s'.slots == s.slots && s'.current == s.current
    requires HasHandle(p) && p.handle.OneTime? ==> p.handle.conn != c
    ensures SessionOk(o, s', p)
  {
    if p.Growing? {
      forall j | p.base <= j < p.base + p.filled ensures Live(s', s'.slots[j]) {
        assert Live(s, s.slots[j]);
      }
    }
  }

  lemma OneTimeResetSessions(o: Options, s: State, t: nat, s': State, c: nat)
    requires Accepted(o) && SlotsOk(o, s) && SessionsOk(o, s) && OwnersOk(s)
    requires c < |s.conns| && s.conns[c].once
    requires s'.conns == s.conns[c := RESET] && s'.slots == s.slots && s'.current == s.current
    requires t < |s.sessions| && s'.sessions == s.sessions[t := Idle]
    requires HasHandle(s.sessions[t]) && s.sessions[t].handle.OneTime? && s.sessions[t].handle.conn == c
    ensures SlotsOk(o, s') && SessionsOk(o, s')
  {
    OneTimeResetSlots(o, s, s', c);
    forall u | 0 <= u < |s'.sessions| ensures SessionOk(o, s', s'.sessions[u]) {
      if u != t {
        OneTimeResetFrame(o, s, s', c, s.sessions[u]);
      }
    }
  }

  lemma CloseTailKeeps(o: Options, s: State, t: nat, ok: bool, s': State)
    requires Accepted(o) && RunningOk(o, s) && !s.crashed && !s.closed
    requires t < |s.sessions| && Advance(o, s, t, ok) == Some(s')
    requires s.sessions[t].CloseTail?
    ensures Inv(o, s')
  {
    var h := s.sessions[t].handle;
    assert SessionOk(o, s, s.sessions[t]) && HandleKnown(s, h);
    if h.OneTime? {
      OneTimeTailKeeps(o, s, t, s');
    } else {
      FreeMove(o, s, t, s');
    }
  }

  lemma OneTimeTailKeeps(o: Options, s: State, t: nat, s': State)
    requires Accepted(o) && RunningOk(o, s) && !s.crashed && !s.closed && t < |s.sessions|
    requires s.sessions[t].CloseTail? && s.sessions[t].handle.OneTime?
    requires var c := s.sessions[t].handle.conn;
             c < |s.conns| && s.conns[c].once && s' == Move(s.(conns := s.conns[c := RESET]), t, Idle)
    ensures RunningOk(o, s')
  {
    OneTimeResetSessions(o, s, t, s', s.sessions[t].handle.conn);
    MoveOwners(s, t, s');
    MoveLock(s, t, s');
    MoveRef(s, t, s');
  }

  lemma ShrinkCheckKeeps(o: Options, s: State, t: nat, ok: bool, s': State)
    requires Accepted(o) && RunningOk(o, s) && !s.crashed && !s.closed
    requires t < |s.sessions| && Advance(o, s, t, ok) == Some(s')
    requires s.sessions[t].ShrinkCheck?
    ensures Inv(o, s')
  {
    assert SessionOk(o, s, s.sessions[t]);
    MoveSessions(o, s, t, s');
    MoveOwners(s, t, s');
    MoveRef(s, t, s');
    if s.ref == 0 {
      UnusedIsQuiet(s, t, s');
    } else {
      MoveLock(s, t, s');
    }
  }

  // Seeing ref == 0 under the write lock: nobody is past the read, and nobody can get past it.
  lemma UnusedIsQuiet(s: State, t: nat, s': State)
    requires LockOk(s) && QuietOk(s) && s.ref == 0 == Holders(s.sessions)
    requires t < |s.sessions| && s.sessions[t].ShrinkCheck? && s' == Move(s, t, ShrinkStore(s.sessions[t].handle))
    ensures LockOk(s') && QuietOk(s')
  {
    CountZero(s.sessions, HoldsRef);
  }

  // With no session past its read, the published size and the spare slots may change freely.
  lemma QuietFrame(o: Options, s: State, s': State, p: Pc)
    requires Accepted(o) && SlotsOk(o, s) && SlotsOk(o, s') && SessionOk(o, s, p) && !PastRead(p) && !p.Deleting?
    requires |s'.conns| == |s.conns|
    requires forall c :: 0 <= c < |s.conns| ==> s'.conns[c] == s.conns[c] || (!s.conns[c].once && s'.conns[c] == RESET)
    ensures SessionOk(o, s', p)
  {
  }

  lemma ShrinkStoreSessions(o: Options, s: State, t: nat, s': State)
    requires Accepted(o) && SlotsOk(o, s) && SlotsOk(o, s') && SessionsOk(o, s) && LockOk(s) && Quiet(s)
    requires t < |s.sessions| == |s'.sessions| && s'.sessions == s.sessions[t := s'.sessions[t]]
    requires s.writer == Some(t) && s'.conns == s.conns && SessionOk(o, s', s'.sessions[t])
    ensures SessionsOk(o, s')
  {
    forall u | 0 <= u < |s'.sessions| ensures SessionOk(o, s', s'.sessions[u]) {
      if u != t {
        assert SessionOk(o, s, s.sessions[u]);
        QuietFrame(o, s, s', s.sessions[u]);
      }
    }
  }

  lemma ShrinkStoreKeeps(o: Options, s: State, t: nat, ok: bool, s': State)
    requires Accepted(o) && RunningOk(o, s) && !s.crashed && !s.closed
    requires t < |s.sessions| && Advance(o, s, t, ok) == Some(s')
    requires s.sessions[t].ShrinkStore?
    ensures Inv(o, s')
  {
    assert Quiet(s) && LockOk(s');
    assert SessionOk(o, s, s.sessions[t]);
    ShrinkStoreSessions(o, s, t, s');
    CountUpdate(s.sessions, HoldsRef, t, s'.sessions[t]);
  }

  lemma DeletingSlots(o: Options, s: State, i: nat, ok: bool)
    requires Accepted(o) && SlotsOk(o, s) && s.current == o.maxIdle && o.maxIdle <= i < o.maxActive
    requires DeadRange(s, o.maxIdle, i)
    ensures SlotsOk(o, ResetSlot(s, i, ok)) && DeadRange(ResetSlot(s, i, ok), o.maxIdle, i + 1)
  {
    DeletingRange(o, s, i, ok);
  }

  lemma DeletingRange(o: Options, s: State, i: nat, ok: bool)
    requires Accepted(o) && SlotsOk(o, s) && s.current == o.maxIdle && o.maxIdle <= i < o.maxActive
    requires DeadRange(s, o.maxIdle, i)
    ensures DeadRange(ResetSlot(s, i, ok), o.maxIdle, i + 1)
  {
  }

  lemma QuietSessions(o: Options, s: State, t: nat, s': State)
    requires Accepted(o) && SlotsOk(o, s) && SlotsOk(o, s') && SessionsOk(o, s) && LockOk(s) && Quiet(s)
    requires |s'.conns| == |s.conns|
    requires forall c :: 0 <= c < |s.conns| ==> s'.conns[c] == s.conns[c] || (!s.conns[c].once && s'.conns[c] == RESET)
    requires t < |s.sessions| && |s'.sessions| == |s.sessions| && s'.sessions == s.sessions[t := s'.sessions[t]]
    requires s.writer == Some(t) && SessionOk(o, s', s'.sessions[t])
    ensures SessionsOk(o, s')
  {
    forall u | 0 <= u < |s'.sessions| ensures SessionOk(o, s', s'.sessions[u]) {
      if u != t {
        QuietFrame(o, s, s', s.sessions[u]);
      }
    }
  }

  lemma DeleteOneKeeps(o: Options, s: State, t: nat, ok: bool, s': State)
    requires Accepted(o) && RunningOk(o, s) && !s.crashed && !s.closed && t < |s.sessions|
    requires s.sessions[t].Deleting? && s.sessions[t].next < o.maxActive && 0 <= s.sessions[t].next < |s.slots|
    requires s' == Move(ResetSlot(s, s.sessions[t].next, ok), t, Deleting(s.sessions[t].handle, s.sessions[t].next + 1))
    ensures RunningOk(o, s')
  {
    MoveLock(s, t, s');
    MoveOwners(s, t, s');
    MoveRef(s, t, s');
    assert SessionOk(o, s, s.sessions[t]);
    DeletingSlots(o, s, s.sessions[t].next, ok);
    assert SlotsOk(o, s');
    QuietSessions(o, s, t, s');
  }

  lemma DeletingKeeps(o: Options, s: State, t: nat, ok: bool, s': State)
    requires Accepted(o) && RunningOk(o, s) && !s.crashed && !s.closed
    requires t < |s.sessions| && Advance(o, s, t, ok) == Some(s')
    requires s.sessions[t].Deleting?
    ensures Inv(o, s')
  {
    assert SessionOk(o, s, s.sessions[t]);
    if s.sessions[t].next < o.maxActive {
      DeleteOneKeeps(o, s, t, ok, s');
    } else {
      MoveSessions(o, s, t, s');
      MoveLock(s, t, s');
      MoveOwners(s, t, s');
      MoveRef(s, t, s');
    }
  }

  // ---------- growing ----------

  // Filling the first spare slot leaves everything below it, and every open handle, as it was.
  lemma FillSlots(o: Options, s: State, i: nat, base: int)
    requires Accepted(o) && SlotsOk(o, s) && s.current <= i < o.maxActive && base == s.current
    requires LiveRange(s, base, i) && DeadRange(s, i, o.maxActive)
    ensures SlotsOk(o, FillSlot(s, i, true))
    ensures LiveRange(FillSlot(s, i, true), base, i + 1) && DeadRange(FillSlot(s, i, true), i + 1, o.maxActive)
  {
    FillRanges(o, s, i, base);
  }

  lemma FillRanges(o: Options, s: State, i: nat, base: int)
    requires Accepted(o) && SlotsOk(o, s) && s.current <= i < o.maxActive && base == s.current
    requires LiveRange(s, base, i) && DeadRange(s, i, o.maxActive)
    ensures LiveRange(FillSlot(s, i, true), base, i + 1) && DeadRange(FillSlot(s, i, true), i + 1, o.maxActive)
  {
  }

  lemma FillFrame(o: Options, s: State, i: nat, p: Pc)
    requires Accepted(o) && SlotsOk(o, s) && s.current <= i < o.maxActive
    requires SlotsOk(o, FillSlot(s, i, true)) && SessionOk(o, s, p) && !p.Growing?
    requires Dead(s, s.slots[i])
    ensures SessionOk(o, FillSlot(s, i, true), p)
  {
  }

  lemma FillSessions(o: Options, s: State, t: nat, i: nat, s': State)
    requires Accepted(o) && SlotsOk(o, s) && SessionsOk(o, s) && LockOk(s) && s.writer == Some(t)
    requires s.current <= i < o.maxActive && Dead(s, s.slots[i])
    requires t < |s.sessions| && |s'.sessions| == |s.sessions| && s' == Move(FillSlot(s, i, true), t, s'.sessions[t])
    requires SlotsOk(o, s') && SessionOk(o, s', s'.sessions[t])
    ensures SessionsOk(o, s')
  {
    forall u | 0 <= u < |s'.sessions| ensures SessionOk(o, s', s'.sessions[u]) {
      if u != t {
        FillFrame(o, s, i, s.sessions[u]);
        SessionFrame(o, FillSlot(s, i, true), s', s.sessions[u]);
      }
    }
  }

  lemma FillStepKeeps(o: Options, s: State, t: nat, s': State)
    requires Accepted(o) && RunningOk(o, s) && !s.crashed && !s.closed
    requires t < |s.sessions| && Advance(o, s, t, true) == Some(s')
    requires var p := s.sessions[t]; p.Growing? && p.filled < p.increment && !p.failed
    ensures Inv(o, s')
  {
    assert SessionOk(o, s, s.sessions[t]);
    FilledKeeps(o, s, t, s');
  }

  predicate FillsNext(o: Options, s: State, t: nat, s': State) {
    && t < |s.sessions| && s.sessions[t].Growing?
    && s.sessions[t].filled < s.sessions[t].increment && !s.sessions[t].failed
    && var p := s.sessions[t];
       && 0 <= p.base + p.filled < |s.slots|
       && s' == Move(FillSlot(s, p.base + p.filled, true), t, p.(filled := p.filled + 1))
  }

  lemma FilledSessions(o: Options, s: State, t: nat, s': State)
    requires Accepted(o) && SlotsOk(o, s) && LockOk(s) && SpareOk(o, s) && SessionsOk(o, s) && s.writer == Some(t)
    requires FillsNext(o, s, t, s')
    ensures SlotsOk(o, s') && SessionsOk(o, s')
    ensures var p := s.sessions[t]; DeadRange(s', p.base + p.filled + 1, o.maxActive)
  {
    var p := s.sessions[t];
    var i := p.base + p.filled;
    assert SessionOk(o, s, p);
    FillSlots(o, s, i, p.base);
    FillSessions(o, s, t, i, s');
  }

  lemma FilledKeeps(o: Options, s: State, t: nat, s': State)
    requires Accepted(o) && RunningOk(o, s) && !s.crashed && !s.closed && FillsNext(o, s, t, s')
    ensures RunningOk(o, s')
  {
    FilledSessions(o, s, t, s');
    MoveOwners(s, t, s');
    MoveLock(s, t, s');
    MoveRef(s, t, s');
  }

  lemma DialFailKeeps(o: Options, s: State, t: nat, s': State)
    requires Accepted(o) && RunningOk(o, s) && !s.crashed && !s.closed
    requires t < |s.sessions| && Advance(o, s, t, false) == Some(s')
    requires var p := s.sessions[t]; p.Growing? && p.filled < p.increment && !p.failed
    ensures Inv(o, s')
  {
    assert SessionOk(o, s, s.sessions[t]);
    MoveSessions(o, s, t, s');
    MoveOwners(s, t, s');
    MoveLock(s, t, s');
    MoveRef(s, t, s');
  }

  // Publishing a larger size.
  lemma PublishSessions(o: Options, s: State, t: nat, s': State)
    requires Accepted(o) && SlotsOk(o, s) && SlotsOk(o, s') && SessionsOk(o, s) && LockOk(s) && s.writer == Some(t)
    requires s'.slots == s.slots && s'.conns == s.conns && s.current <= s'.current
    requires t < |s.sessions| && |s'.sessions| == |s.sessions| && s'.sessions == s.sessions[t := s'.sessions[t]]
    requires SessionOk(o, s', s'.sessions[t])
    ensures SessionsOk(o, s')
  {
    forall u | 0 <= u < |s'.sessions| ensures SessionOk(o, s', s'.sessions[u]) {
      assert SessionOk(o, s, s.sessions[u]);
    }
  }

  // A full grow doubles the size or reaches maxActive.
  lemma FullGrow(o: Options, current: int, g: nat)
    requires Accepted(o) && o.maxIdle <= current < o.maxActive
    requires current == Min(o.maxIdle * Pow2(g), o.maxActive)
    ensures current + Increment(o, current) == Min(o.maxIdle * Pow2(g + 1), o.maxActive)
    ensures o.maxIdle * Pow2(g) < o.maxActive
  {
    assert o.maxIdle * Pow2(g + 1) == 2 * (o.maxIdle * Pow2(g));
  }

  lemma PublishKeeps(o: Options, s: State, t: nat, ok: bool, s': State)
    requires Accepted(o) && RunningOk(o, s) && !s.crashed && !s.closed
    requires t < |s.sessions| && Advance(o, s, t, ok) == Some(s')
    requires var p := s.sessions[t]; p.Growing? && !(p.filled < p.increment && !p.failed)
    ensures Inv(o, s')
  {
    var p := s.sessions[t];
    assert SessionOk(o, s, p);
    assert SlotsOk(o, s');
    PublishSessions(o, s, t, s');
    MoveOwners(s, t, s');
    MoveLock(s, t, s');
    MoveRef(s, t, s');
    if !s.partialGrow && p.filled == p.increment {
      FullGrow(o, s.current, s.fullGrows);
    }
  }

  lemma AdvanceKeeps(o: Options, s: State, t: nat, ok: bool, s': State)
    requires Accepted(o) && RunningOk(o, s) && !s.crashed && !s.closed
    requires t < |s.sessions| && Advance(o, s, t, ok) == Some(s')
    ensures Inv(o, s')
  {
    match s.sessions[t]
    case Idle => BeginStepKeeps(o, s, t, ok, s');
    case Referenced(_) => BeginStepKeeps(o, s, t, ok, s');
    case ReadLocked(_) => BeginStepKeeps(o, s, t, ok, s');
    case Loaded(_, _) => ChooseStepKeeps(o, s, t, ok, s');
    case Picked(_) => SlotReadKeeps(o, s, t, ok, s');
    case Dialing => DialStepKeeps(o, s, t, ok, s');
    case WaitLock(_) => LockStepKeeps(o, s, t, ok, s');
    case Growing(_, increment, filled, failed) =>
      if filled < increment && !failed {
        if ok { FillStepKeeps(o, s, t, s'); } else { DialFailKeeps(o, s, t, s'); }
      } else {
        PublishKeeps(o, s, t, ok, s');
      }
    case Unlocking(_, _) => LockStepKeeps(o, s, t, ok, s');
    case AfterGrow(_) => PickStepKeeps(o, s, t, ok, s');
    case Open(_) => DropStepKeeps(o, s, t, ok, s');
    case Dropped(_, _) => DropStepKeeps(o, s, t, ok, s');
    case WaitShrink(_) => LockStepKeeps(o, s, t, ok, s');
    case ShrinkCheck(_) => ShrinkCheckKeeps(o, s, t, ok, s');
    case ShrinkStore(_) => ShrinkStoreKeeps(o, s, t, ok, s');
    case Deleting(_, _) => DeletingKeeps(o, s, t, ok, s');
    case ShrinkUnlock(_) => LockStepKeeps(o, s, t, ok, s');
    case CloseTail(_) => CloseTailKeeps(o, s, t, ok, s');
    case Failed => assert false;
  }

  lemma ClosedStepKeeps(o: Options, s: State, t: nat, ok: bool, s': State)
    requires Accepted(o) && ClosedOk(o, s) && !s.crashed && s.closed
    requires t < |s.sessions| && Advance(o, s, t, ok) == Some(s')
    ensures Inv(o, s')
  {
    assert ClosedSession(s, s.sessions[t]);
    if !s'.crashed {
      ClosedMove(o, s, t, ok, s');
      assert forall u :: 0 <= u < |s.sessions| ==> ClosedSession(s, s.sessions[u]);
    }
  }

  lemma ClosedMove(o: Options, s: State, t: nat, ok: bool, s': State)
    requires Accepted(o) && s.current == 0 && s.writer.None? && s.closed && t < |s.sessions|
    requires ClosedSession(s, s.sessions[t]) && Advance(o, s, t, ok) == Some(s') && !s'.crashed
    ensures s'.current == 0 && s'.writer.None? && ClosedSession(s', s'.sessions[t])
    ensures |s'.conns| == |s.conns| && forall c :: 0 <= c < |s.conns| && s.conns[c] == RESET ==> s'.conns[c] == RESET
  {
  }

  lemma CloseAllKeeps(o: Options, s: State, kept: set<nat>)
    requires Accepted(o) && RunningOk(o, s) && !s.crashed && !s.closed && Resting(s)
    ensures Inv(o, ClosePool(s, kept))
  {
    var s' := ClosePool(s, kept);
    forall u | 0 <= u < |s'.sessions| ensures ClosedSession(s', s'.sessions[u]) {
      assert SessionOk(o, s, s.sessions[u]);
    }
  }

  lemma InitialKeeps(o: Options, s: State)
    requires Accepted(o) && Initial(o, s)
    ensures Inv(o, s)
  {
    CountZero(s.sessions, HoldsRef);
    assert SlotsOk(o, s) && LockOk(s);
  }

  lemma NextKeeps(o: Options, s: State, a: Action, s': State)
    requires Accepted(o) && Inv(o, s) && Next(o, s, a, s')
    ensures Inv(o, s')
  {
    match a
    case Session(t, ok) =>
      if s.closed { ClosedStepKeeps(o, s, t, ok, s'); } else { AdvanceKeeps(o, s, t, ok, s'); }
    case CloseAll(kept) => CloseAllKeeps(o, s, kept);
  }
}
