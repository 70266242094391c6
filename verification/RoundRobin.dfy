/** How evenly the pool's counter spreads its picks (pkg/arc_grpc/pool.go lines 146 to 149). */
module RoundRobin {
  import opened Wrappers
  import opened Sequences
  import opened Arithmetic
  import opened ConnPool
  import opened ConnPoolSafety

  // How many of the picks start+1, ..., start+n select the given slot out of `size`.
  function Hits(start: nat, n: nat, size: nat, slot: nat): nat
    requires size > 0
  {
    if n == 0 then 0 else Hits(start, n - 1, size, slot) + (if (start + n) % size == slot then 1 else 0)
  }

  // The number of multiples of `size` among slot-shifted values up to x, as a closed form.
  function Upto(x: int, size: nat, slot: nat): int
    requires size > 0
  {
    (x - slot + size) / size
  }

  lemma UptoStep(x: nat, size: nat, slot: nat)
    requires 0 <= slot < size
    ensures Upto(x + 1, size, slot) == Upto(x, size, slot) + (if (x + 1) % size == slot then 1 else 0)
  {
    var y := x + 1;
    var q, r := y / size, y % size;
    assert y == q * size + r;
    if r >= slot {
      QuotientIs(y - slot + size, size, q + 1, r - slot);
    } else {
      QuotientIs(y - slot + size, size, q, r - slot + size);
    }
    if r > slot {
      QuotientIs(x - slot + size, size, q + 1, r - slot - 1);
    } else {
      QuotientIs(x - slot + size, size, q, r - slot - 1 + size);
    }
  }

  lemma {:induction false} HitsClosedForm(start: nat, n: nat, size: nat, slot: nat)
    requires 0 <= slot < size
    ensures Hits(start, n, size, slot) == Upto(start + n, size, slot) - Upto(start, size, slot)
  {
    if n > 0 {
      HitsClosedForm(start, n - 1, size, slot);
      UptoStep(start + n - 1, size, slot);
    }
  }

  // Adding n to a raises its quotient by floor(n / m) or one more.
  lemma QuotientGain(a: int, n: nat, m: nat)
    requires m > 0
    ensures n / m <= (a + n) / m - a / m <= (n + m - 1) / m
  {
    Carry(a, n, m);
    RoundedUp(n, m);
  }

  lemma Carry(a: int, n: nat, m: nat)
    requires m > 0
    ensures (a + n) / m == a / m + n / m + (if a % m + n % m < m then 0 else 1)
  {
    var q, r, p, t := a / m, a % m, n / m, n % m;
    assert a == m * q + r && n == m * p + t;
    if r + t < m {
      assert (q + p) * m == m * q + m * p;
      QuotientIs(a + n, m, q + p, r + t);
    } else {
      assert (q + p + 1) * m == m * q + m * p + m;
      QuotientIs(a + n, m, q + p + 1, r + t - m);
    }
  }

  lemma RoundedUp(n: nat, m: nat)
    requires m > 0
    ensures (n + m - 1) / m == n / m + (if n % m == 0 then 0 else 1)
  {
    var p, t := n / m, n % m;
    assert n == m * p + t;
    if t == 0 {
      assert p * m == m * p;
      QuotientIs(n + m - 1, m, p, m - 1);
    } else {
      assert (p + 1) * m == m * p + m;
      QuotientIs(n + m - 1, m, p + 1, t - 1);
    }
  }

  /** n consecutive picks select every slot floor(n / size) or ceil(n / size) times. */
  lemma Balance(start: nat, n: nat, size: nat, slot: nat)
    requires 0 <= slot < size
    ensures n / size <= Hits(start, n, size, slot) <= (n + size - 1) / size
  {
    HitsClosedForm(start, n, size, slot);
    QuotientGain(start - slot + size, n, size);
    assert start + n - slot + size == start - slot + size + n;
  }

  // ---------- the fast path of the pool ----------

  // A step of a Get that is served from the published connections; no handle is closed.
  predicate FastStep(o: Options, s: State, s': State, t: nat) {
    && !s.crashed && t < |s.sessions|
    && Advance(o, s, t, true) == Some(s')
    && var p := s.sessions[t];
       p.Idle? || p.Referenced? || p.ReadLocked? || p.Picked?
       || (p.Loaded? && p.seen != 0 && p.nextRef <= p.seen * o.maxConcurrentStreams)
  }

  ghost predicate FastRun(o: Options, run: seq<State>) {
    && |run| > 0
    && forall i :: 0 <= i < |run| - 1 ==> FastStepAt(o, run, i)
  }

  ghost predicate FastStepAt(o: Options, run: seq<State>, i: nat)
    requires i + 1 < |run|
  {
    FastSteps(o, run[i], run[i + 1])
  }

  ghost predicate FastSteps(o: Options, s: State, s': State) {
    exists t: nat :: FastStep(o, s, s', t)
  }

  function OnSlot(slot: nat): Pc -> bool {
    (p: Pc) => (p.Picked? && p.slot == slot) || (p.Open? && p.handle.Pooled? && p.handle.slot == slot)
  }

  predicate HasPicked(p: Pc) {
    p.Picked? || p.Open?
  }

  // Gets that hold one of the references 1, ..., limit and have not picked yet.
  function Entitled(limit: int): Pc -> bool {
    (p: Pc) => (p.Referenced? || p.ReadLocked? || p.Loaded?) && p.nextRef <= limit
  }

  predicate FastInv(o: Options, start: State, s: State) {
    var size := start.current;
    var limit := size * o.maxConcurrentStreams;
    var picks := Count(s.sessions, HasPicked);
    && s.current == size && s.slots == start.slots && s.conns == start.conns && s.writer.None? && !s.closed
    && (forall u :: 0 <= u < |s.sessions| ==>
                      var p := s.sessions[u];
                      && (p.Idle? || p.Referenced? || p.ReadLocked? || p.Loaded? || p.Picked?
                          || (p.Open? && p.handle.Pooled?))
                      && (p.Loaded? ==> p.seen == size)
                      && (p.Picked? ==> p.slot < size))
    && s.ref >= 0
    && picks + Count(s.sessions, Entitled(limit)) == Min(s.ref, limit)
    && s.index == start.index + picks
    && (forall slot: nat :: slot < size ==> Count(s.sessions, OnSlot(slot)) == Hits(start.index, picks, size, slot))
  }

  // Where a fast run begins: nobody uses the pool and the counter is far from wrapping.
  predicate FastStart(o: Options, s: State) {
    && Accepted(o) && !s.closed && !s.crashed && SlotsOk(o, s) && s.ref == 0 && s.writer.None?
    && (forall u :: 0 <= u < |s.sessions| ==> s.sessions[u].Idle?)
    && s.index + s.current * o.maxConcurrentStreams < UINT32_MODULUS
  }

  // A freshly made pool is such a start.
  lemma NewPoolStartsFast(o: Options, s: State)
    requires Accepted(o) && Initial(o, s)
    ensures FastStart(o, s)
  {
    MulLe(o.maxIdle, o.maxActive, o.maxConcurrentStreams);
  }

  lemma FastBegin(o: Options, s: State)
    requires FastStart(o, s)
    ensures FastInv(o, s, s)
  {
    var limit := s.current * o.maxConcurrentStreams;
    CountZero(s.sessions, HasPicked);
    CountZero(s.sessions, Entitled(limit));
    forall slot: nat | slot < s.current
      ensures Count(s.sessions, OnSlot(slot)) == Hits(s.index, 0, s.current, slot)
    {
      CountZero(s.sessions, OnSlot(slot));
    }
    assert limit >= 0;
  }

  // What a step does to the three counts.
  lemma FastCounts(o: Options, start: State, s: State, s': State, t: nat)
    requires FastStart(o, start) && t < |s.sessions| && |s'.sessions| == |s.sessions|
    requires s'.sessions == s.sessions[t := s'.sessions[t]]
    ensures var p, p', limit := s.sessions[t], s'.sessions[t], start.current * o.maxConcurrentStreams;
            && Count(s'.sessions, HasPicked)
               == Count(s.sessions, HasPicked) - (if HasPicked(p) then 1 else 0) + (if HasPicked(p') then 1 else 0)
            && Count(s'.sessions, Entitled(limit))
               == Count(s.sessions, Entitled(limit)) - (if Entitled(limit)(p) then 1 else 0)
                  + (if Entitled(limit)(p') then 1 else 0)
            && (forall slot: nat :: Count(s'.sessions, OnSlot(slot))
                  == Count(s.sessions, OnSlot(slot)) - (if OnSlot(slot)(p) then 1 else 0)
                     + (if OnSlot(slot)(p') then 1 else 0))
  {
    CountUpdate(s.sessions, HasPicked, t, s'.sessions[t]);
    CountUpdate(s.sessions, Entitled(start.current * o.maxConcurrentStreams), t, s'.sessions[t]);
    forall slot: nat {
      CountUpdate(s.sessions, OnSlot(slot), t, s'.sessions[t]);
    }
  }

  lemma FastPick(o: Options, start: State, s: State, s': State, t: nat)
    requires FastStart(o, start) && FastInv(o, start, s) && FastStep(o, s, s', t) && s.sessions[t].Loaded?
    ensures FastInv(o, start, s')
  {
    FastCounts(o, start, s, s', t);
    CountZero(s.sessions, Entitled(start.current * o.maxConcurrentStreams));
    assert s.index + 1 < UINT32_MODULUS;
    assert s'.sessions[t] == Picked((s.index + 1) % start.current);
  }

  lemma FastOther(o: Options, start: State, s: State, s': State, t: nat)
    requires FastStart(o, start) && FastInv(o, start, s) && FastStep(o, s, s', t) && !s.sessions[t].Loaded?
    ensures s'.crashed || FastInv(o, start, s')
  {
    FastCounts(o, start, s, s', t);
    if s.sessions[t].Picked? {
      assert Live(start, start.slots[s.sessions[t].slot]);
    }
  }

  lemma FastStepsKeep(o: Options, start: State, s: State, s': State)
    requires FastStart(o, start) && (s.crashed || FastInv(o, start, s)) && FastSteps(o, s, s')
    ensures s'.crashed || FastInv(o, start, s')
  {
    var t: nat :| FastStep(o, s, s', t);
    if s.sessions[t].Loaded? { FastPick(o, start, s, s', t); } else { FastOther(o, start, s, s', t); }
  }

  lemma {:induction false} FastRunKeeps(o: Options, run: seq<State>, i: nat)
    requires FastRun(o, run) && FastStart(o, run[0]) && i < |run|
    ensures run[i].crashed || FastInv(o, run[0], run[i])
  {
    if i == 0 {
      FastBegin(o, run[0]);
    } else {
      FastRunKeeps(o, run, i - 1);
      assert FastStepAt(o, run, i - 1);
      FastStepsKeep(o, run[0], run[i - 1], run[i]);
    }
  }

  /** From an unused pool, fast-path Gets with no closes never put more than maxConcurrentStreams of their
      handles on one connection, in any interleaving. */
  lemma FastPathBalance(o: Options, run: seq<State>, i: nat, slot: nat)
    requires FastRun(o, run) && FastStart(o, run[0]) && i < |run| && !run[i].crashed && slot < run[0].current
    ensures Count(run[i].sessions, OnSlot(slot)) <= o.maxConcurrentStreams
  {
    FastRunKeeps(o, run, i);
    var size := run[0].current;
    var picks := Count(run[i].sessions, HasPicked);
    Balance(run[0].index, picks, size, slot);
    var limit := size * o.maxConcurrentStreams;
    assert picks <= limit;
    CeilBound(picks, size, o.maxConcurrentStreams);
  }

  lemma CeilBound(n: nat, m: nat, k: nat)
    requires m > 0 && n <= m * k
    ensures (n + m - 1) / m <= k
  {
    var q, r := (n + m - 1) / m, (n + m - 1) % m;
    assert n + m - 1 == m * q + r;
    if q > k {
      MulLe(k + 1, q, m);
    }
  }
}
