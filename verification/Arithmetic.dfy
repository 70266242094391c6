/** Arithmetic shared by the other modules, and facts about quotients the solver does not find on its own. */
module Arithmetic {

  function Min(a: int, b: int): int {
    if a < b then a else b
  }

  function Pow2(k: nat): (r: nat)
    ensures r > 0
  {
    if k == 0 then 1 else 2 * Pow2(k - 1)
  }

  const TWO63: int := 0x8000_0000_0000_0000
  const TWO64: int := 0x1_0000_0000_0000_0000

  // An int64 with the given bit pattern.
  function Signed64(v: nat): int {
    if v < TWO63 then v else v - TWO64
  }

  // Integer division of Go, which truncates toward zero.
  function Quotient(a: int, b: int): int
    requires b > 0
  {
    if a >= 0 then a / b else -(-a / b)
  }

  lemma MulLe(a: int, b: int, m: nat)
    requires a <= b
    ensures a * m <= b * m
  {
  }

  lemma QuotientIs(v: int, m: nat, q: int, r: int)
    requires m > 0 && v == q * m + r && 0 <= r < m
    ensures v / m == q && v % m == r
  {
    var q', r' := v / m, v % m;
    assert v == m * q' + r' && 0 <= r' < m;
    if q' < q {
      MulLe(q' + 1, q, m);
    } else if q' > q {
      MulLe(q + 1, q', m);
    }
  }

  lemma AddMultiple(x: nat, q: nat, m: nat)
    requires m > 0
    ensures (q * m + x) % m == x % m
  {
    var p := x / m;
    assert x == m * p + x % m;
    assert (q + p) * m == q * m + m * p;
    QuotientIs(q * m + x, m, q + p, x % m);
  }

  lemma DivDiv(v: nat, a: nat, b: nat)
    requires a > 0 && b > 0
    ensures a * b > 0 && v / a / b == v / (a * b)
  {
    var q, r := v / a, v % a;
    var q', r' := q / b, q % b;
    NestedQuotient(v, a, b, q, r, q', r');
    QuotientIs(v, a * b, q', r' * a + r);
  }

  lemma NestedQuotient(v: nat, a: nat, b: nat, q: nat, r: nat, q': nat, r': nat)
    requires v == a * q + r && q == b * q' + r' && r < a && r' < b
    ensures v == q' * (a * b) + (r' * a + r) && 0 <= r' * a + r < a * b
  {
    Regroup(a, b, q', r');
    MulLe(r', b - 1, a);
    assert (b - 1) * a == a * b - a;
    MulLe(0, r', a);
  }

  lemma Regroup(a: nat, b: nat, q: nat, r: nat)
    ensures a * (b * q + r) == q * (a * b) + r * a
  {
    assert a * (b * q + r) == a * (b * q) + a * r;
    assert a * (b * q) == (a * b) * q;
  }
}
