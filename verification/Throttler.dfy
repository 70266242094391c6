/** The write throttler: sleeping so that bytes keep to a rate, in nanoseconds and exact rationals. */
module Throttler {
  import opened Arithmetic

  const MILLI: nat := 1_000_000
  const TENTH: nat := 100_000_000

  // The fields a call changes: bytes since the last check, and when that was.
  datatype Meter = Meter(counter: int, checkTime: int)

  // One call: its bytes, the clock when it comes, and how much later than the sleep asked for the clock is read again.
  datatype Call = Call(delta: int, now: int, lag: nat)

  function Counted(m: Meter, c: Call): int {
    m.counter + c.delta
  }

  predicate Closes(m: Meter, c: Call) {
    c.now - m.checkTime > TENTH
  }

  // Milliseconds slept by a call that closes a window of b bytes.
  function Sleep(rate: nat, b: int): (ms: nat)
    requires rate > 0
  {
    var over := b - rate / 10;
    if over > 0 then over * 1000 / rate else 0
  }

  function Step(rate: int, m: Meter, c: Call): Meter {
    if rate <= 0 then m
    else if !Closes(m, c) then m.(counter := Counted(m, c))
    else Meter(0, c.now + Sleep(rate, Counted(m, c)) * MILLI + c.lag)
  }

  /** The sleep is the most whole milliseconds that the bytes beyond a tenth of the rate are worth. */
  lemma SleepIsExact(rate: nat, b: int)
    requires rate > 0
    ensures b <= rate / 10 ==> Sleep(rate, b) == 0
    ensures b > rate / 10 ==> Sleep(rate, b) * rate <= 1000 * (b - rate / 10) < (Sleep(rate, b) + 1) * rate
  {
    if b > rate / 10 {
      var x, q := (b - rate / 10) * 1000, Sleep(rate, b);
      assert x == rate * q + x % rate;
      assert (q + 1) * rate == q * rate + rate;
    }
  }

  /** A finished window of w nanoseconds held at most rate * (w + 1ms) bytes (per second). */
  lemma WindowBound(rate: int, m: Meter, c: Call)
    requires rate > 0 && Closes(m, c)
    ensures var w := Step(rate, m, c).checkTime - m.checkTime;
      1000 * MILLI * Counted(m, c) <= rate * (w + MILLI)
  {
    var b, s := Counted(m, c), Sleep(rate, Counted(m, c));
    var w := Step(rate, m, c).checkTime - m.checkTime;
    SleepIsExact(rate, b);
    SleepPays(rate, b, s);
    MulLe(TENTH + (s + 1) * MILLI, w + MILLI, rate);
  }

  // A tenth of a second and a sleep of s milliseconds, rounded up, are worth b bytes.
  lemma SleepPays(rate: nat, b: int, s: nat)
    requires b <= rate / 10 || 1000 * (b - rate / 10) < (s + 1) * rate
    ensures 1000 * MILLI * b <= (TENTH + (s + 1) * MILLI) * rate
  {
    assert (TENTH + (s + 1) * MILLI) * rate == TENTH * rate + (s + 1) * rate * MILLI;
    assert (s + 1) * rate >= 0;
  }

  /** A call more than 100 ms after the last check closes the window: nothing is left counted, and the next window
      opens no earlier than the call, and no earlier than its sleep ends. Any other call only counts its bytes. */
  lemma WindowsCloseOnTime(rate: int, m: Meter, c: Call)
    requires rate > 0
    ensures c.now - m.checkTime > 100_000_000 ==>
              var m' := Step(rate, m, c);
              m'.counter == 0 && m'.checkTime == c.now + 1_000_000 * Sleep(rate, m.counter + c.delta) + c.lag
    ensures c.now - m.checkTime <= 100_000_000 ==> Step(rate, m, c) == Meter(m.counter + c.delta, m.checkTime)
  {
  }

  // The bytes left open by a run are those of the calls since the last check, which came within 100 ms of it.
  function OpenCalls(rate: int, m: Meter, calls: seq<Call>): (open: seq<Call>)
    ensures |open| <= |calls|
  {
    if calls == [] then []
    else
      var init, c := calls[..|calls| - 1], calls[|calls| - 1];
      if c.now - After(rate, m, init).checkTime > 100_000_000 then [] else OpenCalls(rate, m, init) + [c]
  }

  // The counter is the bytes of the open calls, on top of the first counter when no window has closed, and each of
  // them came within 100 ms of the last check.
  predicate Accounts(first: int, m: Meter, open: seq<Call>, windows: nat) {
    && m.counter == Total(open) + (if windows == 0 then first else 0)
    && forall k :: 0 <= k < |open| ==> open[k].now - m.checkTime <= 100_000_000
  }

  lemma AccountsNext(rate: int, first: int, m: Meter, open: seq<Call>, windows: nat, c: Call)
    requires rate > 0 && Accounts(first, m, open, windows)
    ensures if c.now - m.checkTime > 100_000_000 then Accounts(first, Step(rate, m, c), [], windows + 1)
            else Accounts(first, Step(rate, m, c), open + [c], windows)
  {
    WindowsCloseOnTime(rate, m, c);
    assert (open + [c])[..|open|] == open;
  }

  /** What the finished windows do not account for is bounded in time. */
  lemma {:induction false} OpenBytes(rate: int, m: Meter, calls: seq<Call>)
    requires rate > 0
    ensures var open := OpenCalls(rate, m, calls);
            && open == calls[|calls| - |open|..]
            && Accounts(m.counter, After(rate, m, calls), open, Windows(rate, m, calls))
  {
    if calls != [] {
      var init, c := calls[..|calls| - 1], calls[|calls| - 1];
      OpenBytes(rate, m, init);
      assert calls == init + [c];
      AccountsNext(rate, m.counter, After(rate, m, init), OpenCalls(rate, m, init), Windows(rate, m, init), c);
    }
  }

  function Total(calls: seq<Call>): int {
    if calls == [] then 0 else Total(calls[..|calls| - 1]) + calls[|calls| - 1].delta
  }

  function After(rate: int, m: Meter, calls: seq<Call>): Meter {
    if calls == [] then m else Step(rate, After(rate, m, calls[..|calls| - 1]), calls[|calls| - 1])
  }

  // How many windows the calls finish.
  function Windows(rate: int, m: Meter, calls: seq<Call>): nat {
    if calls == [] then 0
    else
      var init := calls[..|calls| - 1];
      Windows(rate, m, init) + (if rate > 0 && Closes(After(rate, m, init), calls[|calls| - 1]) then 1 else 0)
  }

  /** Over any run of calls, the bytes of its k finished windows are at most the rate times the time they took,
      plus one millisecond for each; the rest is still in the counter. */
  lemma {:induction false} RunBound(rate: int, m: Meter, calls: seq<Call>)
    requires rate > 0
    ensures var m', k := After(rate, m, calls), Windows(rate, m, calls);
      1000 * MILLI * (m.counter + Total(calls) - m'.counter) <= rate * (m'.checkTime - m.checkTime + k * MILLI)
  {
    if calls != [] {
      var init, c := calls[..|calls| - 1], calls[|calls| - 1];
      RunBound(rate, m, init);
      var p, k := After(rate, m, init), Windows(rate, m, init);
      if Closes(p, c) {
        WindowBound(rate, p, c);
        OneMoreWindow(rate, p.checkTime - m.checkTime, k, Step(rate, p, c).checkTime - p.checkTime);
      }
    }
  }

  lemma OneMoreWindow(rate: int, elapsed: int, k: nat, w: int)
    ensures rate * (elapsed + k * MILLI) + rate * (w + MILLI) == rate * (elapsed + w + (k + 1) * MILLI)
  {
    assert elapsed + k * MILLI + (w + MILLI) == elapsed + w + (k + 1) * MILLI;
    Distribute(rate, elapsed + k * MILLI, w + MILLI);
  }

  lemma Distribute(a: int, x: int, y: int)
    ensures a * x + a * y == a * (x + y)
  {
  }

  class WriteThrottler {
    const compactionBytePerSecond: int
    var lastSizeCounter: int
    var lastSizeCheckTime: int

    constructor (bytesPerSecond: int, now: int)
      ensures compactionBytePerSecond == bytesPerSecond && State() == Meter(0, now)
    {
      compactionBytePerSecond, lastSizeCounter, lastSizeCheckTime := bytesPerSecond, 0, now;
    }

    function State(): Meter
      reads this
    {
      Meter(lastSizeCounter, lastSizeCheckTime)
    }

    /** Counts delta bytes at time now; sleeps when a window closes over its share. The clock reads lag later
        than the sleep's end when the next window opens. */
    method MaybeSlowdown(delta: int, now: int, lag: nat) returns (sleepTime: nat)
      modifies this
      ensures State() == Step(compactionBytePerSecond, old(State()), Call(delta, now, lag))
      ensures sleepTime ==
              if compactionBytePerSecond > 0 && Closes(old(State()), Call(delta, now, lag))
              then Sleep(compactionBytePerSecond, old(lastSizeCounter) + delta) else 0
    {
      sleepTime := 0;
      if compactionBytePerSecond > 0 {
        lastSizeCounter := lastSizeCounter + delta;
        var elapsedDuration := now - lastSizeCheckTime;
        if elapsedDuration > TENTH {
          var overLimitBytes := lastSizeCounter - compactionBytePerSecond / 10;
          if overLimitBytes > 0 {
            sleepTime := overLimitBytes * 1000 / compactionBytePerSecond;
          }
          lastSizeCounter, lastSizeCheckTime := 0, now + sleepTime * MILLI + lag;
        }
      }
    }
  }
}
