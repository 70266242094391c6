/** Fixed-width decimal numerals and the byte order of strings. */
module Decimal {
  import opened Arithmetic

  function Pow10(w: nat): (r: nat)
    ensures r > 0
  {
    if w == 0 then 1 else 10 * Pow10(w - 1)
  }

  predicate IsDigit(c: char) {
    '0' <= c <= '9'
  }

  function Digit(n: nat): (c: char)
    requires n < 10
    ensures IsDigit(c)
  {
    '0' + n as char
  }

  predicate AllDigits(s: string) {
    forall i :: 0 <= i < |s| ==> IsDigit(s[i])
  }

  // The w low-order decimal digits of n.
  function Fixed(n: nat, w: nat): (s: string)
    ensures |s| == w && AllDigits(s)
  {
    if w == 0 then "" else Fixed(n / 10, w - 1) + [Digit(n % 10)]
  }

  function Number(s: string): nat
    requires AllDigits(s)
  {
    if s == "" then 0 else Number(s[..|s| - 1]) * 10 + (s[|s| - 1] - '0') as nat
  }

  lemma {:induction false} NumberOfFixed(n: nat, w: nat)
    requires n < Pow10(w)
    ensures Number(Fixed(n, w)) == n
  {
    if w > 0 {
      NumberOfFixed(n / 10, w - 1);
      assert Fixed(n, w)[..w - 1] == Fixed(n / 10, w - 1);
    }
  }

  lemma {:induction false} FixedOfNumber(s: string)
    requires AllDigits(s)
    ensures Number(s) < Pow10(|s|) && Fixed(Number(s), |s|) == s
  {
    if s != "" {
      FixedOfNumber(s[..|s| - 1]);
      assert s == s[..|s| - 1] + [s[|s| - 1]];
    }
  }

  // Printing two numbers one after the other is printing their combination.
  lemma {:induction false} FixedConcat(a: nat, v: nat, b: nat, w: nat)
    requires b < Pow10(w)
    ensures Fixed(a, v) + Fixed(b, w) == Fixed(a * Pow10(w) + b, v + w)
  {
    if w == 0 {
      assert Fixed(a, v) + "" == Fixed(a, v);
    } else {
      FixedConcat(a, v, b / 10, w - 1);
      var n := a * Pow10(w) + b;
      assert n == (a * Pow10(w - 1) + b / 10) * 10 + b % 10 by {
        assert a * (10 * Pow10(w - 1)) == 10 * (a * Pow10(w - 1));
      }
      QuotientIs(n, 10, a * Pow10(w - 1) + b / 10, b % 10);
      assert Fixed(a, v) + (Fixed(b / 10, w - 1) + [Digit(b % 10)])
          == (Fixed(a, v) + Fixed(b / 10, w - 1)) + [Digit(b % 10)];
    }
  }

  // Go's < on strings: byte by byte.
  predicate Less(s: string, t: string) {
    if s == "" then t != ""
    else if t == "" then false
    else s[0] < t[0] || (s[0] == t[0] && Less(s[1..], t[1..]))
  }

  lemma {:induction false} LessAppend(s: string, t: string, c: char, d: char)
    requires |s| == |t|
    ensures Less(s + [c], t + [d]) <==> Less(s, t) || (s == t && c < d)
  {
    if s == "" {
      assert s + [c] == [c] && t + [d] == [d];
    } else {
      LessAppend(s[1..], t[1..], c, d);
      assert (s + [c])[1..] == s[1..] + [c] && (t + [d])[1..] == t[1..] + [d];
      assert s == [s[0]] + s[1..] && t == [t[0]] + t[1..];
    }
  }

  /** On numerals of one width, the byte order of strings is the order of numbers, and equal strings are
      equal numbers. */
  lemma {:induction false} FixedOrder(n: nat, m: nat, w: nat)
    requires n < Pow10(w) && m < Pow10(w)
    ensures Less(Fixed(n, w), Fixed(m, w)) <==> n < m
    ensures Fixed(n, w) == Fixed(m, w) <==> n == m
  {
    NumberOfFixed(n, w);
    NumberOfFixed(m, w);
    if w > 0 {
      FixedOrder(n / 10, m / 10, w - 1);
      LessAppend(Fixed(n / 10, w - 1), Fixed(m / 10, w - 1), Digit(n % 10), Digit(m % 10));
    }
  }
}
