/** Every Get and every Close of a handle comes to its end: how many operations of its own it takes. */
module ConnPoolProgress {
  import opened Wrappers
  import opened ConnPool
  import opened ConnPoolSafety
  import opened ConnPoolRuns

  // A grow under way adds no more than the slots there are, a shrink stays within them.
  predicate Bounded(o: Options, p: Pc) {
    && (p.Growing? ==> p.filled <= p.increment <= o.maxActive)
    && (p.Deleting? ==> 0 <= p.next <= o.maxActive)
  }

  // How many operations a session still has to take at most until it has closed its handle.
  function StepsLeft(o: Options, p: Pc): nat
    requires o.maxActive >= 0 && Bounded(o, p)
  {
    match p
    case Idle => 0
    case Failed => 0
    case Referenced(_) => 2 * o.maxActive + 16
    case ReadLocked(_) => 2 * o.maxActive + 15
    case Loaded(_, _) => 2 * o.maxActive + 14
    case WaitLock(_) => 2 * o.maxActive + 13
    case Growing(_, increment, filled, failed) => o.maxActive + 12 + (if failed then 0 else increment - filled)
    case Unlocking(_, _) => o.maxActive + 11
    case AfterGrow(_) => o.maxActive + 10
    case Picked(_) => o.maxActive + 9
    case Dialing => o.maxActive + 9
    case Open(_) => o.maxActive + 8
    case Dropped(_, _) => o.maxActive + 7
    case WaitShrink(_) => o.maxActive + 6
    case ShrinkCheck(_) => o.maxActive + 5
    case ShrinkStore(_) => o.maxActive + 4
    case Deleting(_, next) => o.maxActive - next + 3
    case ShrinkUnlock(_) => 2
    case CloseTail(_) => 1
  }

  // p' is nearer to the end than p.
  predicate Nearer(o: Options, p: Pc, p': Pc)
    requires o.maxActive >= 0 && Bounded(o, p)
  {
    Bounded(o, p') && StepsLeft(o, p') < StepsLeft(o, p)
  }

  lemma GetIsNearer(o: Options, s: State, t: nat, ok: bool, s': State)
    requires Accepted(o) && t < |s.sessions| && AdvanceGet(o, s, t, ok) == Some(s') && !s'.crashed
    ensures if s.sessions[t].Idle? then s'.sessions[t].Referenced? else Nearer(o, s.sessions[t], s'.sessions[t])
  {
  }

  lemma GrowIsNearer(o: Options, s: State, t: nat, ok: bool, s': State)
    requires Accepted(o) && t < |s.sessions| && AdvanceGrow(o, s, t, ok) == Some(s') && !s'.crashed
    requires 0 <= s.current && Bounded(o, s.sessions[t])
    ensures Nearer(o, s.sessions[t], s'.sessions[t])
  {
  }

  lemma CloseIsNearer(o: Options, s: State, t: nat, ok: bool, s': State)
    requires Accepted(o) && t < |s.sessions| && AdvanceClose(o, s, t, ok) == Some(s') && !s'.crashed
    ensures Nearer(o, s.sessions[t], s'.sessions[t])
  {
  }

  lemma ShrinkIsNearer(o: Options, s: State, t: nat, ok: bool, s': State)
    requires Accepted(o) && t < |s.sessions| && AdvanceShrink(o, s, t, ok) == Some(s') && !s'.crashed
    requires Bounded(o, s.sessions[t])
    ensures Nearer(o, s.sessions[t], s'.sessions[t])
  {
    if s.sessions[t].Deleting? {
      DeletingIsNearer(o, s, t, ok, s');
    }
  }

  lemma DeletingIsNearer(o: Options, s: State, t: nat, ok: bool, s': State)
    requires Accepted(o) && t < |s.sessions| && AdvanceShrink(o, s, t, ok) == Some(s') && !s'.crashed
    requires s.sessions[t].Deleting? && Bounded(o, s.sessions[t])
    ensures Nearer(o, s.sessions[t], s'.sessions[t])
  {
    var p := s.sessions[t];
    assert s'.sessions[t] == if p.next < o.maxActive then Deleting(p.handle, p.next + 1) else ShrinkUnlock(p.handle);
  }

  lemma AdvanceIsNearer(o: Options, s: State, t: nat, ok: bool, s': State)
    requires Accepted(o) && t < |s.sessions| && Advance(o, s, t, ok) == Some(s') && !s'.crashed
    requires 0 <= s.current && Bounded(o, s.sessions[t])
    ensures if s.sessions[t].Idle? then s'.sessions[t].Referenced? else Nearer(o, s.sessions[t], s'.sessions[t])
  {
    var p := s.sessions[t];
    if p.WaitLock? || p.Growing? || p.Unlocking? || p.AfterGrow? {
      GrowIsNearer(o, s, t, ok, s');
    } else if p.Open? || p.Dropped? || p.CloseTail? {
      CloseIsNearer(o, s, t, ok, s');
    } else if p.WaitShrink? || p.ShrinkCheck? || p.ShrinkStore? || p.Deleting? || p.ShrinkUnlock? {
      ShrinkIsNearer(o, s, t, ok, s');
    } else {
      GetIsNearer(o, s, t, ok, s');
    }
  }

  // run is a run by these actions.
  ghost predicate RunsBy(o: Options, run: seq<State>, acts: seq<Action>) {
    IsRun(o, run) && |run| == |acts| + 1 && forall k :: 0 <= k < |acts| ==> ActAt(o, run, acts, k)
  }

  predicate ActAt(o: Options, run: seq<State>, acts: seq<Action>, k: nat)
    requires k < |acts| && |run| == |acts| + 1
  {
    Next(o, run[k], acts[k], run[k + 1])
  }

  // The operations of session t from position i of the run to position j.
  function OwnSteps(acts: seq<Action>, i: nat, j: nat, t: nat): nat
    requires i <= j <= |acts|
  {
    if i == j then 0
    else OwnSteps(acts, i, j - 1, t) + (if acts[j - 1].Session? && acts[j - 1].t == t then 1 else 0)
  }

  lemma {:induction false} StaysBounded(o: Options, run: seq<State>, acts: seq<Action>, i: nat, t: nat)
    requires RunsBy(o, run, acts) && i < |run| && Working(run[i])
    requires t < |run[0].sessions|
    ensures t < |run[i].sessions| && Bounded(o, run[i].sessions[t]) && 0 <= run[i].current
  {
    RunKeeps(o, run, i);
    SizeAndSlots(o, run, i);
    if i > 0 {
      EarlierOpen(o, run, i - 1, i);
      StaysBounded(o, run, acts, i - 1, t);
      assert ActAt(o, run, acts, i - 1);
      if acts[i - 1].t == t {
        AdvanceIsNearer(o, run[i - 1], t, acts[i - 1].ok, run[i]);
      }
    }
  }

  // Session t is inside a Get, holds its handle or is inside its Close from position i up to position j.
  predicate OneCall(run: seq<State>, i: nat, j: nat, t: nat)
    requires i <= j < |run|
  {
    forall k :: i <= k < j ==> t < |run[k].sessions| && !run[k].sessions[t].Idle?
  }

  lemma {:induction false} StepsAreSpent(o: Options, run: seq<State>, acts: seq<Action>, i: nat, j: nat, t: nat)
    requires RunsBy(o, run, acts) && i <= j < |run| && Working(run[j]) && t < |run[0].sessions|
    requires OneCall(run, i, j, t)
    ensures t < |run[i].sessions| && t < |run[j].sessions|
    ensures Bounded(o, run[i].sessions[t]) && Bounded(o, run[j].sessions[t])
    ensures OwnSteps(acts, i, j, t) + StepsLeft(o, run[j].sessions[t]) <= StepsLeft(o, run[i].sessions[t])
  {
    StaysBounded(o, run, acts, j, t);
    if i < j {
      EarlierOpen(o, run, j - 1, j);
      StepsAreSpent(o, run, acts, i, j - 1, t);
      StaysBounded(o, run, acts, j - 1, t);
      assert ActAt(o, run, acts, j - 1);
      assert !run[j - 1].sessions[t].Idle?;
      if acts[j - 1].t == t {
        AdvanceIsNearer(o, run[j - 1], t, acts[j - 1].ok, run[j]);
      }
    }
  }

  /** Whatever the other sessions do, a Get and the Close of its handle take at most 2 * MaxActive + 16 operations
      together behind the first; both loops end, also when dials and closes fail. */
  lemma CallsFinish(o: Options, run: seq<State>, acts: seq<Action>, i: nat, j: nat, t: nat)
    requires RunsBy(o, run, acts) && i <= j < |run| && Working(run[j]) && t < |run[0].sessions|
    requires OneCall(run, i, j, t)
    ensures OwnSteps(acts, i, j, t) <= 2 * o.maxActive + 16
  {
    StepsAreSpent(o, run, acts, i, j, t);
  }
}
