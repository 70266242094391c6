/**
 The gRPC connection pool (pkg/arc_grpc/pool.go, pkg/arc_grpc/conn.go) as a machine over atomic steps.

 A session is one Get and, when it returned a handle, at most one Close of that handle. Any number of
 sessions run at once. `Advance` performs the next atomic operation of one session: an atomic counter
 update, a lock operation, a slot access or a dial. Everything in between only touches the session's own
 variables, which are kept in its program counter.
*/
module ConnPool {
  import opened Wrappers

  const MAX_INT32 := 0x7FFF_FFFF
  const UINT32_MODULUS := 0x1_0000_0000

  datatype Options = Options(maxIdle: int, maxActive: int, maxConcurrentStreams: int, reuse: bool)

  // The settings New accepts, together with the int32 conversions that must not overflow.
  predicate Accepted(o: Options) {
    && 0 < o.maxIdle <= o.maxActive
    && 0 < o.maxConcurrentStreams
    && 2 * o.maxActive <= MAX_INT32
    && o.maxActive * o.maxConcurrentStreams <= MAX_INT32
  }

  // A conn object: `open` is cc != nil, `attached` is pool != nil.
  datatype Conn = Conn(open: bool, attached: bool, once: bool)

  const FRESH := Conn(true, true, false)
  const RESET := Conn(false, false, false)

  // What Get hands to its caller. A pooled handle remembers the slot it was read from.
  datatype Handle =
    | NilHandle
    | Pooled(slot: nat, conn: nat)
    | OneTime(conn: nat, dialFailed: bool)

  datatype Pc =
    | Idle
      // Get
    | Referenced(nextRef: int)
    | ReadLocked(nextRef: int)
    | Loaded(nextRef: int, seen: int)
    | Picked(slot: nat)
    | Dialing
    | WaitLock(nextRef: int)
    | Growing(base: int, increment: int, filled: nat, failed: bool)
    | Unlocking(seen: int, failed: bool)
    | AfterGrow(seen: int)
    | Open(handle: Handle)
    | Failed
      // Close of a handle
    | Dropped(handle: Handle, newRef: int)
    | WaitShrink(handle: Handle)
    | ShrinkCheck(handle: Handle)
    | ShrinkStore(handle: Handle)
    | Deleting(handle: Handle, next: int)
    | ShrinkUnlock(handle: Handle)
    | CloseTail(handle: Handle)

  // `conns` is the heap of conn objects; a slot holds an index into it. `fullGrows` and `partialGrow`
  // record the grows since the last shrink and influence nothing.
  datatype State = State(
    index: nat,
    current: int,
    ref: int,
    writer: Option<nat>,
    slots: seq<Option<nat>>,
    conns: seq<Conn>,
    sessions: seq<Pc>,
    fullGrows: nat,
    partialGrow: bool,
    closed: bool,
    crashed: bool)

  function Move(s: State, t: nat, p: Pc): State
    requires t < |s.sessions|
  {
    s.(sessions := s.sessions[t := p])
  }

  function Crash(s: State): State {
    s.(crashed := true)
  }

  // The write lock is free when no writer and no reader holds it.
  predicate LockFree(s: State) {
    s.writer.None? && forall u :: 0 <= u < |s.sessions| ==> !s.sessions[u].ReadLocked?
  }

  // index is a uint32 and wraps; the slot is the new value modulo the size the session has seen.
  function Pick(s: State, t: nat, size: int): (r: State)
    requires t < |s.sessions|
    ensures |r.sessions| == |s.sessions| && r.sessions == s.sessions[t := r.sessions[t]]
    ensures r.closed == s.closed && r.current == s.current
  {
    var index := (s.index + 1) % UINT32_MODULUS;
    if size <= 0 then Crash(s) else Move(s.(index := index), t, Picked(index % size))
  }

  // How far one grow extends a pool of the given size.
  function Increment(o: Options, current: int): int {
    if current + current > o.maxActive then o.maxActive - current else current
  }

  // pool.reset: the conn loses its fields; its slot is emptied unless closing the connection failed.
  function ResetSlot(s: State, i: nat, closeOk: bool): (r: State)
    requires i < |s.slots|
    ensures |r.slots| == |s.slots| && |r.conns| == |s.conns| && r.sessions == s.sessions
  {
    match s.slots[i]
    case None => s
    case Some(c) =>
      if c >= |s.conns| then s else
      s.(conns := s.conns[c := RESET],
         slots := if s.conns[c].open && !closeOk then s.slots else s.slots[i := None])
  }

  // One round of the grow loop after a successful dial.
  function FillSlot(s: State, i: nat, closeOk: bool): State
    requires i < |s.slots|
  {
    var r := ResetSlot(s, i, closeOk);
    r.(slots := r.slots[i := Some(|r.conns|)], conns := r.conns + [FRESH])
  }

  function AddConn(s: State, c: Conn): State {
    s.(conns := s.conns + [c])
  }

  // Which object Close reads through; None is a nil dereference.
  function Target(s: State, h: Handle): Option<nat> {
    match h
    case NilHandle => None
    case Pooled(_, c) => if c < |s.conns| then Some(c) else None
    case OneTime(c, _) => if c < |s.conns| then Some(c) else None
  }

  // What Get returns for a picked slot.
  function HandleAt(s: State, slot: nat): Handle
    requires slot < |s.slots|
  {
    if s.slots[slot].None? then NilHandle else Pooled(slot, s.slots[slot].value)
  }

  // Get up to the choice of a connection (pool.go lines 137 to 161).
  function AdvanceGet(o: Options, s: State, t: nat, ok: bool): (r: Option<State>)
    requires t < |s.sessions|
    ensures r.Some? ==> |r.value.sessions| == |s.sessions| && r.value.sessions == s.sessions[t := r.value.sessions[t]]
    ensures r.Some? ==> r.value.closed == s.closed
    ensures r.Some? ==> r.value.current == s.current
  {
    match s.sessions[t]
    case Idle =>
      var r := s.ref + 1;
      Some(if r == MAX_INT32 then Crash(s.(ref := r)) else Move(s.(ref := r), t, Referenced(r)))
    case Referenced(n) =>
      if s.writer.Some? then None else Some(Move(s, t, ReadLocked(n)))
    case ReadLocked(n) =>
      Some(Move(s, t, Loaded(n, s.current)))
    case Loaded(n, seen) =>
      Some(if seen == 0 then Move(s, t, Failed)
           else if n <= seen * o.maxConcurrentStreams then Pick(s, t, seen)
           else if seen == o.maxActive then (if o.reuse then Pick(s, t, seen) else Move(s, t, Dialing))
           else Move(s, t, WaitLock(n)))
    case Picked(slot) =>
      Some(if slot >= |s.slots| then Crash(s) else Move(s, t, Open(HandleAt(s, slot))))
    case Dialing =>
      Some(Move(AddConn(s, Conn(ok, true, true)), t, Open(OneTime(|s.conns|, !ok))))
    case _ => None
  }

  // Get under the write lock (pool.go lines 163 to 194).
  function AdvanceGrow(o: Options, s: State, t: nat, ok: bool): (r: Option<State>)
    requires t < |s.sessions|
    ensures r.Some? ==> |r.value.sessions| == |s.sessions| && r.value.sessions == s.sessions[t := r.value.sessions[t]]
    ensures r.Some? ==> r.value.closed == s.closed
  {
    match s.sessions[t]
    case WaitLock(n) =>
      if !LockFree(s) then None else
      Some(Move(s.(writer := Some(t)), t,
                if s.current < o.maxActive && n > s.current * o.maxConcurrentStreams
                then Growing(s.current, Increment(o, s.current), 0, false)
                else Unlocking(s.current, false)))
    case Growing(base, increment, filled, failed) =>
      Some(if filled < increment && !failed then
             if !(0 <= base + filled < |s.slots|) then Crash(s)
             else if ok then Move(FillSlot(s, base + filled, ok), t, Growing(base, increment, filled + 1, false))
             else Move(s, t, Growing(base, increment, filled, true))
           else
             Move(s.(current := base + filled,
                     fullGrows := if filled == increment then s.fullGrows + 1 else s.fullGrows,
                     partialGrow := s.partialGrow || 0 < filled < increment),
                  t, Unlocking(base + filled, failed)))
    case Unlocking(seen, failed) =>
      Some(Move(s.(writer := None), t, if failed then Failed else AfterGrow(seen)))
    case AfterGrow(seen) =>
      Some(Pick(s, t, seen))
    case _ => None
  }

  // Close of a handle (pool.go lines 101 to 106, conn.go lines 30 to 47).
  function AdvanceClose(o: Options, s: State, t: nat, ok: bool): (r: Option<State>)
    requires t < |s.sessions|
    ensures r.Some? ==> |r.value.sessions| == |s.sessions| && r.value.sessions == s.sessions[t := r.value.sessions[t]]
    ensures r.Some? ==> r.value.closed == s.closed
    ensures r.Some? ==> r.value.current == s.current
  {
    match s.sessions[t]
    case Open(h) =>
      var target := Target(s, h);
      Some(if target.None? || !s.conns[target.value].attached then Crash(s)
           else if s.ref - 1 < 0 then Crash(s.(ref := s.ref - 1))
           else Move(s.(ref := s.ref - 1), t, Dropped(h, s.ref - 1)))
    case Dropped(h, r) =>
      Some(Move(s, t, if r == 0 && s.current > o.maxIdle then WaitShrink(h) else CloseTail(h)))
    case CloseTail(h) =>
      var target := Target(s, h);
      Some(Move(if target.Some? && s.conns[target.value].once then s.(conns := s.conns[target.value := RESET]) else s,
                t, Idle))
    case _ => None
  }

  // The shrink a Close may cause (pool.go lines 107 to 134).
  function AdvanceShrink(o: Options, s: State, t: nat, ok: bool): (r: Option<State>)
    requires t < |s.sessions|
    ensures r.Some? ==> |r.value.sessions| == |s.sessions| && r.value.sessions == s.sessions[t := r.value.sessions[t]]
    ensures r.Some? ==> r.value.closed == s.closed
  {
    match s.sessions[t]
    case WaitShrink(h) =>
      if !LockFree(s) then None else Some(Move(s.(writer := Some(t)), t, ShrinkCheck(h)))
    case ShrinkCheck(h) =>
      Some(Move(s, t, if s.ref == 0 then ShrinkStore(h) else ShrinkUnlock(h)))
    case ShrinkStore(h) =>
      Some(Move(s.(current := o.maxIdle, fullGrows := 0, partialGrow := false), t, Deleting(h, o.maxIdle)))
    case Deleting(h, i) =>
      Some(if i < o.maxActive then
             if !(0 <= i < |s.slots|) then Crash(s) else Move(ResetSlot(s, i, ok), t, Deleting(h, i + 1))
           else Move(s, t, ShrinkUnlock(h)))
    case ShrinkUnlock(h) =>
      Some(Move(s.(writer := None), t, CloseTail(h)))
    case _ => None
  }

  /** The next atomic operation of session t; None when it is blocked or has ended. `ok` answers the
      dial or the closing of a connection that the operation performs. */
  function Advance(o: Options, s: State, t: nat, ok: bool): (r: Option<State>)
    requires t < |s.sessions|
    ensures r.Some? ==> |r.value.sessions| == |s.sessions| && r.value.sessions == s.sessions[t := r.value.sessions[t]]
    ensures r.Some? ==> r.value.closed == s.closed
  {
    var p := s.sessions[t];
    if p.Failed? then None
    else if p.WaitLock? || p.Growing? || p.Unlocking? || p.AfterGrow? then AdvanceGrow(o, s, t, ok)
    else if p.Open? || p.Dropped? || p.CloseTail? then AdvanceClose(o, s, t, ok)
    else if p.WaitShrink? || p.ShrinkCheck? || p.ShrinkStore? || p.Deleting? || p.ShrinkUnlock? then
      AdvanceShrink(o, s, t, ok)
    else AdvanceGet(o, s, t, ok)
  }

  // pool.Close must not run beside other calls; handles may still be open and errors may have happened.
  predicate Resting(s: State) {
    forall u :: 0 <= u < |s.sessions| ==> s.sessions[u].Idle? || s.sessions[u].Open? || s.sessions[u].Failed?
  }

  // pool.Close. The slots in `kept` are those whose connection reported an error while closing.
  function ClosePool(s: State, kept: set<nat>): State {
    s.(index := 0, current := 0, ref := 0, closed := true,
       conns := seq(|s.conns|, c requires 0 <= c < |s.conns| => if Some(c) in s.slots then RESET else s.conns[c]),
       slots := seq(|s.slots|, j requires 0 <= j < |s.slots| => if j in kept then s.slots[j] else None))
  }

  datatype Action = Session(t: nat, ok: bool) | CloseAll(kept: set<nat>)

  // A panic in one goroutine ends the whole program, so a crashed state has no successor.
  predicate Next(o: Options, s: State, a: Action, s': State) {
    && !s.crashed
    && match a
       case Session(t, ok) => t < |s.sessions| && Advance(o, s, t, ok) == Some(s')
       case CloseAll(kept) => !s.closed && Resting(s) && s' == ClosePool(s, kept)
  }

  // The pool New returns: maxIdle connections dialed in order, the other slots empty.
  predicate Initial(o: Options, s: State) {
    && s.index == 0 && s.current == o.maxIdle && s.ref == 0 && s.writer.None?
    && |s.slots| == o.maxActive && |s.conns| == o.maxIdle
    && (forall j :: 0 <= j < |s.slots| ==> s.slots[j] == if j < o.maxIdle then Some(j) else None)
    && (forall c :: 0 <= c < |s.conns| ==> s.conns[c] == FRESH)
    && (forall t :: 0 <= t < |s.sessions| ==> s.sessions[t].Idle?)
    && s.fullGrows == 0 && !s.partialGrow && !s.closed && !s.crashed
  }

  // All states a run visits, first to last.
  ghost predicate IsRun(o: Options, run: seq<State>) {
    && |run| > 0
    && Accepted(o) && Initial(o, run[0])
    && forall i :: 0 <= i < |run| - 1 ==> StepAt(o, run, i)
  }

  ghost predicate StepAt(o: Options, run: seq<State>, i: nat)
    requires i + 1 < |run|
  {
    Steps(o, run[i], run[i + 1])
  }

  ghost predicate Steps(o: Options, s: State, s': State) {
    exists a :: Next(o, s, a, s')
  }

  datatype NewError = InvalidAddress | InvalidDial | InvalidMaximum | InvalidStreams | DialFailed
  datatype NewResult = Created(pool: State) | Rejected(error: NewError)

  /** New: `dials[k]` answers the k-th dial. The result is the initial pool, or the first failing check. */
  method New(address: string, hasDial: bool, o: Options, dials: seq<bool>, n: nat) returns (r: NewResult)
    requires |dials| >= o.maxIdle
    ensures r.Created? <==> address != "" && hasDial && 0 < o.maxIdle <= o.maxActive && 0 < o.maxConcurrentStreams
                            && forall k :: 0 <= k < o.maxIdle ==> dials[k]
    ensures r.Created? ==> Initial(o, r.pool) && |r.pool.sessions| == n
    ensures r == Rejected(InvalidAddress) <==> address == ""
    ensures r == Rejected(InvalidDial) <==> address != "" && !hasDial
    ensures r == Rejected(InvalidMaximum) <==> address != "" && hasDial && !(0 < o.maxIdle <= o.maxActive)
    ensures r == Rejected(InvalidStreams) <==>
            address != "" && hasDial && 0 < o.maxIdle <= o.maxActive && o.maxConcurrentStreams <= 0
    ensures r == Rejected(DialFailed) <==>
            address != "" && hasDial && 0 < o.maxIdle <= o.maxActive && 0 < o.maxConcurrentStreams
            && exists k :: 0 <= k < o.maxIdle && !dials[k]
  {
    if address == "" { return Rejected(InvalidAddress); }
    if !hasDial { return Rejected(InvalidDial); }
    if o.maxIdle <= 0 || o.maxActive <= 0 || o.maxIdle > o.maxActive { return Rejected(InvalidMaximum); }
    if o.maxConcurrentStreams <= 0 { return Rejected(InvalidStreams); }
    var slots: seq<Option<nat>> := seq(o.maxActive, _ => None);
    var conns: seq<Conn> := [];
    for i := 0 to o.maxIdle
      invariant |slots| == o.maxActive && |conns| == i
      invariant forall k :: 0 <= k < i ==> dials[k]
      invariant forall j :: 0 <= j < |slots| ==> slots[j] == if j < i then Some(j) else None
      invariant forall c :: 0 <= c < i ==> conns[c] == FRESH
    {
      if !dials[i] { return Rejected(DialFailed); }
      slots := slots[i := Some(i)];
      conns := conns + [FRESH];
    }
    r := Created(State(0, o.maxIdle, 0, None, slots, conns, seq(n, _ => Idle), 0, false, false, false));
  }
}
