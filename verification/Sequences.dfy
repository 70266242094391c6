/** Counting and selecting the elements of a sequence that satisfy a predicate. */
module Sequences {

  predicate Distinct<T(==)>(xs: seq<T>) {
    forall i, j :: 0 <= i < j < |xs| ==> xs[i] != xs[j]
  }

  function Count<T>(xs: seq<T>, f: T -> bool): nat {
    if xs == [] then 0 else Count(xs[..|xs| - 1], f) + (if f(xs[|xs| - 1]) then 1 else 0)
  }

  lemma {:induction false} CountUpdate<T>(xs: seq<T>, f: T -> bool, i: nat, x: T)
    requires i < |xs|
    ensures Count(xs[i := x], f) == Count(xs, f) - (if f(xs[i]) then 1 else 0) + (if f(x) then 1 else 0)
  {
    var last := |xs| - 1;
    if i == last {
      assert xs[i := x][..last] == xs[..last];
    } else {
      CountUpdate(xs[..last], f, i, x);
      assert xs[i := x][..last] == xs[..last][i := x];
    }
  }

  lemma {:induction false} CountZero<T>(xs: seq<T>, f: T -> bool)
    ensures Count(xs, f) == 0 <==> forall i :: 0 <= i < |xs| ==> !f(xs[i])
  {
    if xs != [] {
      var last := |xs| - 1;
      CountZero(xs[..last], f);
      if i :| 0 <= i < last && f(xs[i]) {
        assert f(xs[..last][i]);
      }
      assert forall i :: 0 <= i < last ==> xs[..last][i] == xs[i];
    }
  }

  function Filter<T>(xs: seq<T>, f: T -> bool): seq<T> {
    if xs == [] then [] else Filter(xs[..|xs| - 1], f) + (if f(xs[|xs| - 1]) then [xs[|xs| - 1]] else [])
  }

  lemma FilterAppend<T>(xs: seq<T>, f: T -> bool, x: T)
    ensures Filter(xs + [x], f) == Filter(xs, f) + (if f(x) then [x] else [])
  {
    assert (xs + [x])[..|xs|] == xs;
  }

  lemma FilterOne<T>(f: T -> bool, x: T)
    ensures Filter([x], f) == if f(x) then [x] else []
    ensures Filter([], f) == []
  {
    FilterAppend([], f, x);
    assert [] + [x] == [x];
  }

  lemma {:induction false} FilterConcat<T>(xs: seq<T>, ys: seq<T>, f: T -> bool)
    ensures Filter(xs + ys, f) == Filter(xs, f) + Filter(ys, f)
  {
    if ys == [] {
      assert xs + ys == xs;
    } else {
      var last := |ys| - 1;
      FilterConcat(xs, ys[..last], f);
      assert (xs + ys)[..|xs + ys| - 1] == xs + ys[..last];
    }
  }
}
