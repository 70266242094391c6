/** Big-endian integers (pkg/util/bytes.go). */
module BigEndian {
  import opened Arithmetic
  import opened Wrappers

  type Byte = b: nat | b < 256

  function Pow256(n: nat): (r: nat)
    ensures r > 0
  {
    if n == 0 then 1 else 256 * Pow256(n - 1)
  }

  // The number a byte string spells, most significant byte first.
  function Value(b: seq<Byte>): nat {
    if b == [] then 0 else Value(b[..|b| - 1]) * 256 + b[|b| - 1]
  }

  // The n low-order bytes of v, most significant first.
  function Digits(v: nat, n: nat): (b: seq<Byte>)
    ensures |b| == n
  {
    if n == 0 then [] else Digits(v / 256, n - 1) + [v % 256]
  }

  lemma {:induction false} ValueBound(b: seq<Byte>)
    ensures Value(b) < Pow256(|b|)
  {
    if b != [] {
      ValueBound(b[..|b| - 1]);
    }
  }

  lemma {:induction false} DigitsOfValue(b: seq<Byte>)
    ensures Digits(Value(b), |b|) == b
  {
    if b != [] {
      DigitsOfValue(b[..|b| - 1]);
    }
  }

  lemma {:induction false} ValueOfDigits(v: nat, n: nat)
    requires v < Pow256(n)
    ensures Value(Digits(v, n)) == v
  {
    if n > 0 {
      ValueOfDigits(v / 256, n - 1);
      assert Digits(v, n)[..n - 1] == Digits(v / 256, n - 1);
    }
  }

  // Digit k from the right.
  lemma {:induction false} DigitAt(v: nat, n: nat, k: nat)
    requires k < n
    ensures Digits(v, n)[n - 1 - k] == v / Pow256(k) % 256
  {
    if k > 0 {
      DigitAt(v / 256, n - 1, k - 1);
      DivDiv(v, 256, Pow256(k - 1));
    }
  }

  lemma ShiftIn(x: nat, b: nat, m: nat)
    requires m > 0
    ensures (x % m + b) % m == (x + b) % m
    ensures (x % m * 256) % m == (x * 256) % m
  {
    var q, r := x / m, x % m;
    assert x == q * m + r;
    AddMultiple(r + b, q, m);
    assert x * 256 == (256 * q) * m + r * 256;
    AddMultiple(r * 256, 256 * q, m);
  }

  /** BytesToUint64 (w = 8) and BytesToUint32 (w = 4): v += b[i]; v <<= 8, all modulo the width. The empty slice
      panics in the source. */
  method BytesToUint(b: seq<Byte>, w: nat) returns (v: nat)
    requires |b| > 0
    ensures v == Value(b) % Pow256(w)
  {
    var m := Pow256(w);
    v := 0;
    assert b[..0] == [];
    for i := 0 to |b| - 1
      invariant v == (Value(b[..i]) * 256) % m
    {
      assert b[..i + 1][..i] == b[..i];
      ShiftIn(Value(b[..i]) * 256, b[i], m);
      v := (v + b[i]) % m;
      ShiftIn(Value(b[..i + 1]), 0, m);
      v := (v * 256) % m;
    }
    ShiftIn(Value(b[..|b| - 1]) * 256, b[|b| - 1], m);
    v := (v + b[|b| - 1]) % m;
  }

  /** BytesToUint16 has no loop: it reads the first two bytes and no others, and panics (None) when there are fewer. */
  method BytesToUint16(b: seq<Byte>) returns (v: Option<nat>)
    ensures v.None? <==> |b| < 2
    ensures v.Some? ==> v.value == Value(b[..2]) < Pow256(2)
  {
    if |b| < 2 {
      return None;
    }
    var m: nat := 0x1_0000;
    var u: nat := b[0] % m;
    u := u * 256 % m;
    u := (u + b[1]) % m;
    FitsSixteen(b[0], b[1]);
    TwoBytes(b, b[0], b[1]);
    return Some(u);
  }

  lemma FitsSixteen(x: Byte, y: Byte)
    ensures (x % 0x1_0000 * 256 % 0x1_0000 + y) % 0x1_0000 == x * 256 + y
  {
  }

  lemma TwoBytes(b: seq<Byte>, x: Byte, y: Byte)
    requires |b| >= 2 && b[0] == x && b[1] == y
    ensures Value(b[..2]) == x * 256 + y < Pow256(2)
  {
    assert b[..2][..1] == b[..1] && b[..1][..0] == [];
    assert Value(b[..1]) == x;
    ValueBound(b[..2]);
  }

  /** BytesToUint16 agrees with the loop of the wider forms exactly when the first two bytes are the last two, which
      are those the loop ends in. */
  lemma SixteenBitsDiffer(b: seq<Byte>)
    requires |b| >= 2
    ensures Value(b[..2]) == Value(b) % Pow256(2) <==> b[..2] == b[|b| - 2..]
  {
    OnlyTheTailCounts(b, 2);
    SameValue(b[..2], b[|b| - 2..]);
  }

  lemma SameValue(a: seq<Byte>, b: seq<Byte>)
    requires |a| == |b|
    ensures Value(a) == Value(b) <==> a == b
  {
    DigitsOfValue(a);
    DigitsOfValue(b);
  }

  /** Uint64toBytes (w = 8), Uint32toBytes (w = 4), Uint16toBytes (w = 2), Uint8toBytes (w = 1). A slice
      shorter than w panics in the source. */
  method UintToBytes(b: array<Byte>, v: nat, w: nat)
    requires b.Length >= w
    modifies b
    ensures b[..w] == Digits(v, w)
    ensures b[w..] == old(b[w..])
  {
    for i := 0 to w
      invariant forall k :: 0 <= k < i ==> b[w - 1 - k] == v / Pow256(k) % 256
      invariant forall k :: w <= k < b.Length ==> b[k] == old(b[k])
    {
      b[w - 1 - i] := v / Pow256(i) % 256;
    }
    forall j | 0 <= j < w ensures b[j] == Digits(v, w)[j] {
      DigitAt(v, w, w - 1 - j);
      assert b[w - 1 - (w - 1 - j)] == v / Pow256(w - 1 - j) % 256;
    }
  }

  /** Reading back w written bytes gives the number again, and writing back w read bytes the bytes. */
  lemma RoundTrip(v: nat, b: seq<Byte>, w: nat)
    requires v < Pow256(w) && |b| == w
    ensures Value(Digits(v, w)) % Pow256(w) == v
    ensures Digits(Value(b) % Pow256(w), w) == b
  {
    ValueOfDigits(v, w);
    QuotientIs(v, Pow256(w), 0, v);
    ValueBound(b);
    QuotientIs(Value(b), Pow256(w), 0, Value(b));
    DigitsOfValue(b);
  }

  /** Only the last w bytes of a longer key matter. */
  lemma {:induction false} OnlyTheTailCounts(b: seq<Byte>, w: nat)
    requires |b| >= w
    ensures Value(b) % Pow256(w) == Value(b[|b| - w..])
  {
    SplitValue(b[..|b| - w], b[|b| - w..]);
    assert b == b[..|b| - w] + b[|b| - w..];
    ValueBound(b[|b| - w..]);
    AddMultiple(Value(b[|b| - w..]), Value(b[..|b| - w]), Pow256(w));
    QuotientIs(Value(b[|b| - w..]), Pow256(w), 0, Value(b[|b| - w..]));
  }

  lemma {:induction false} SplitValue(a: seq<Byte>, b: seq<Byte>)
    ensures Value(a + b) == Value(a) * Pow256(|b|) + Value(b)
  {
    if b == [] {
      assert a + b == a;
    } else {
      SplitValue(a, b[..|b| - 1]);
      var last := |b| - 1;
      assert (a + b)[..|a| + last] == a + b[..last] && (a + b)[|a| + last] == b[last];
      assert Value(a) * Pow256(|b|) == 256 * (Value(a) * Pow256(|b| - 1));
    }
  }
}
