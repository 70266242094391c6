/** Which worker and which queue a sensor id is sent to: masking with n - 1 (pkg/decode.go lines 168 to 176,
    pkg/handles.go lines 392, 428 and 436, pkg/arc_volume/queue.go lines 172 to 177). */
module Routing {
  import opened BigEndian
  import opened Arithmetic

  // Bitwise operators on unsigned integers.
  function BitAnd(a: nat, b: nat): nat {
    if a == 0 || b == 0 then 0 else 2 * BitAnd(a / 2, b / 2) + (if a % 2 == 1 && b % 2 == 1 then 1 else 0)
  }

  function BitOr(a: nat, b: nat): nat
    decreases a + b
  {
    if a == 0 then b else if b == 0 then a
    else 2 * BitOr(a / 2, b / 2) + (if a % 2 == 1 || b % 2 == 1 then 1 else 0)
  }

  ghost predicate IsPow2(n: nat) {
    exists k: nat :: n == Pow2(k)
  }

  // v & uint64(n-1)
  function Mask(v: nat, n: nat): nat
    requires n >= 1
  {
    BitAnd(v, n - 1)
  }

  lemma {:induction false} BitAndBound(a: nat, b: nat)
    ensures BitAnd(a, b) <= a && BitAnd(a, b) <= b
  {
    if a != 0 && b != 0 {
      BitAndBound(a / 2, b / 2);
    }
  }

  /** Every id is routed to an existing worker, whatever the number of workers. */
  lemma MaskInRange(v: nat, n: nat)
    requires n >= 1
    ensures Mask(v, n) < n
  {
    BitAndBound(v, n - 1);
  }

  lemma HalfRemainder(v: nat, m: nat)
    requires m > 0
    ensures v % (2 * m) == 2 * (v / 2 % m) + v % 2
  {
    var q, r := v / 2 / m, v / 2 % m;
    assert v / 2 == m * q + r;
    assert q * (2 * m) == 2 * (m * q);
    QuotientIs(v, 2 * m, q, 2 * r + v % 2);
  }

  lemma {:induction false} MaskOfPow2(v: nat, k: nat)
    ensures Mask(v, Pow2(k)) == v % Pow2(k)
  {
    if k > 0 {
      var m := Pow2(k - 1);
      MaskOfPow2(v / 2, k - 1);
      HalfRemainder(v, m);
      assert (2 * m - 1) / 2 == m - 1 && (2 * m - 1) % 2 == 1;
    }
  }

  // n & (n-1) is zero only for powers of two.
  lemma {:induction false} SelfMask(n: nat)
    requires n >= 1 && BitAnd(n, n - 1) == 0
    ensures IsPow2(n)
  {
    if n % 2 == 1 {
      BitAndSelf(n / 2);
      assert n == Pow2(0);
    } else {
      SelfMask(n / 2);
      var k: nat :| n / 2 == Pow2(k);
      assert n == Pow2(k + 1);
    }
  }

  lemma {:induction false} BitAndSelf(a: nat)
    ensures BitAnd(a, a) == a
  {
    if a > 0 {
      BitAndSelf(a / 2);
    }
  }

  /** Masking spreads ids like the remainder exactly when the number of workers is a power of two. */
  lemma MaskIsRemainder(n: nat)
    requires n >= 1
    ensures (forall v: nat :: Mask(v, n) == v % n) <==> IsPow2(n)
  {
    if IsPow2(n) {
      var k: nat :| n == Pow2(k);
      forall v: nat ensures Mask(v, n) == v % n {
        MaskOfPow2(v, k);
      }
    } else if forall v: nat :: Mask(v, n) == v % n {
      assert Mask(n, n) == n % n == 0;
      SelfMask(n);
    }
  }

  lemma {:induction false} MaskTwice(v: nat, m: nat)
    ensures BitAnd(BitAnd(v, m), m) == BitAnd(v, m)
  {
    if v != 0 && m != 0 {
      MaskTwice(v / 2, m / 2);
    }
  }

  // A mask with a zero bit loses some number below it.
  lemma {:induction false} LosesSome(m: nat) returns (w: nat)
    requires !IsPow2(m + 1)
    ensures w <= m && BitAnd(w, m) != w
  {
    if m % 2 == 0 {
      assert m + 1 == 1 ==> m + 1 == Pow2(0);
      w := m - 1;
    } else {
      if k: nat :| m / 2 + 1 == Pow2(k) {
        assert m + 1 == Pow2(k + 1);
      }
      w := LosesSome(m / 2);
      w := 2 * w + 1;
    }
  }

  // Some id is sent to worker w.
  ghost predicate HasWork(w: nat, n: nat)
    requires n >= 1
  {
    exists v: nat :: Mask(v, n) == w
  }

  /** Every worker gets some id exactly when the number of workers is a power of two. */
  lemma NoWorkerIdles(n: nat)
    requires n >= 1
    ensures (forall w: nat :: w < n ==> HasWork(w, n)) <==> IsPow2(n)
  {
    if IsPow2(n) {
      MaskIsRemainder(n);
      forall w: nat | w < n
        ensures HasWork(w, n)
      {
        QuotientIs(w, n, 0, w);
        assert Mask(w, n) == w;
      }
    } else {
      var w := LosesSome(n - 1);
      if v: nat :| Mask(v, n) == w {
        MaskTwice(v, n - 1);
      }
      assert !HasWork(w, n);
    }
  }

  /** An odd number of workers (15 by default) leaves every odd-numbered one without work. */
  lemma OddCountIdlesOddWorkers(v: nat, n: nat)
    requires n % 2 == 1
    ensures Mask(v, n) % 2 == 0
  {
  }

  // ---------- the 6-byte sensor id ----------

  // Or-ing a multiple of 2^k to a number below 2^k adds the two.
  lemma {:induction false} OrDisjoint(low: nat, x: nat, k: nat)
    requires low < Pow2(k) && x % Pow2(k) == 0
    ensures BitOr(low, x) == low + x
  {
    if k > 0 && low > 0 && x > 0 {
      HalfRemainder(x, Pow2(k - 1));
      OrDisjoint(low / 2, x / 2, k - 1);
    }
  }

  // ByteToUInt64: the low byte is the last one; each further byte is shifted by 8 more and or-ed in.
  function ByteToUInt64(id: seq<Byte>): nat
    requires |id| >= 6
  {
    BitOr(BitOr(BitOr(BitOr(BitOr(id[5], id[4] * Pow2(8)), id[3] * Pow2(16)), id[2] * Pow2(24)), id[1] * Pow2(32)),
          id[0] * Pow2(40))
  }

  lemma {:induction false} PowersAgree(n: nat)
    ensures Pow256(n) == Pow2(8 * n)
  {
    if n > 0 {
      PowersAgree(n - 1);
      var k := 8 * (n - 1);
      assert Pow2(k + 8) == 2 * Pow2(k + 7) == 4 * Pow2(k + 6) == 8 * Pow2(k + 5) == 16 * Pow2(k + 4);
      assert Pow2(k + 4) == 2 * Pow2(k + 3) == 4 * Pow2(k + 2) == 8 * Pow2(k + 1) == 16 * Pow2(k);
    }
  }

  // One more byte in front, shifted by k bits.
  lemma OrByte(rest: seq<Byte>, b: Byte, k: nat)
    requires k == 8 * |rest|
    ensures BitOr(Value(rest), b * Pow2(k)) == Value([b] + rest)
  {
    ValueBound(rest);
    PowersAgree(|rest|);
    AddMultiple(0, b, Pow2(k));
    OrDisjoint(Value(rest), b * Pow2(k), k);
    SplitValue([b], rest);
    assert Value([b]) == b by {
      assert [b][..0] == [];
    }
  }

  lemma OrTail(id: seq<Byte>, i: nat, k: nat)
    requires i < |id| && k == 8 * (|id| - i - 1)
    ensures BitOr(Value(id[i + 1..]), id[i] * Pow2(k)) == Value(id[i..])
  {
    OrByte(id[i + 1..], id[i], k);
    assert [id[i]] + id[i + 1..] == id[i..];
  }

  lemma LastByteValue(id: seq<Byte>)
    requires |id| == 6
    ensures Value(id[5..]) == id[5]
  {
    assert id[5..] == [id[5]] && [id[5]][..0] == [];
  }

  /** The id used for dispatch is the big-endian value of the six id bytes, so the gRPC key, the frame's id
      and the key of the timeout map name the same worker. */
  lemma IdIsBigEndian(id: seq<Byte>)
    requires |id| == 6
    ensures ByteToUInt64(id) == Value(id) < Pow256(6)
  {
    LastByteValue(id);
    OrTail(id, 4, 8);
    OrTail(id, 3, 16);
    OrTail(id, 2, 24);
    OrTail(id, 1, 32);
    OrTail(id, 0, 40);
    assert id[0..] == id;
    ValueBound(id);
  }

  /** Queue.getQueue: the index of the queue for a sensor. It exists, and only the last eight bytes of the
      key decide it. */
  method GetQueue(key: seq<Byte>, queueNum: nat) returns (i: nat)
    requires |key| > 0 && queueNum >= 1
    ensures i < queueNum
    ensures i == Mask(if |key| >= 8 then Value(key[|key| - 8..]) else Value(key), queueNum)
  {
    var value := BytesToUint(key, 8);
    i := Mask(value, queueNum);
    MaskInRange(value, queueNum);
    if |key| >= 8 {
      OnlyTheTailCounts(key, 8);
    } else {
      ValueBound(key);
      Pow256Grows(|key|, 8);
      QuotientIs(Value(key), Pow256(8), 0, Value(key));
    }
  }

  lemma {:induction false} Pow256Grows(a: nat, b: nat)
    requires a <= b
    ensures Pow256(a) <= Pow256(b)
  {
    if a < b {
      Pow256Grows(a, b - 1);
    }
  }
}
