/** The byte order of strings is a total order, and sorting by it. */
module StringOrder {
  import opened Decimal
  import opened Sequences

  lemma {:induction false} LessIsTotal(s: string, t: string)
    ensures Less(s, t) || Less(t, s) || s == t
    ensures !(Less(s, t) && Less(t, s)) && !Less(s, s)
  {
    if s != "" && t != "" {
      LessIsTotal(s[1..], t[1..]);
      assert s == [s[0]] + s[1..] && t == [t[0]] + t[1..];
    }
    if s != "" {
      LessIsTotal(s[1..], s[1..]);
    }
  }

  lemma {:induction false} LessIsTransitive(s: string, t: string, u: string)
    requires Less(s, t) && Less(t, u)
    ensures Less(s, u)
  {
    if s != "" && s[0] == t[0] == u[0] {
      LessIsTransitive(s[1..], t[1..], u[1..]);
    }
  }

  predicate AtMost(s: string, t: string) {
    !Less(t, s)
  }

  lemma AtMostIsTransitive(s: string, t: string, u: string)
    requires AtMost(s, t) && AtMost(t, u)
    ensures AtMost(s, u)
  {
    LessIsTotal(s, t);
    LessIsTotal(t, u);
    LessIsTotal(s, u);
    if Less(s, t) && Less(t, u) {
      LessIsTransitive(s, t, u);
    }
  }

  predicate Sorted(s: seq<string>) {
    forall i, j :: 0 <= i < j < |s| ==> AtMost(s[i], s[j])
  }

  predicate Increasing(s: seq<string>) {
    forall i, j :: 0 <= i < j < |s| ==> Less(s[i], s[j])
  }

  lemma SortedAndDistinct(s: seq<string>)
    requires Sorted(s) && Distinct(s)
    ensures Increasing(s)
  {
    forall i, j | 0 <= i < j < |s|
      ensures Less(s[i], s[j])
    {
      LessIsTotal(s[i], s[j]);
    }
  }

  lemma IncreasingIsDistinct(s: seq<string>)
    requires Increasing(s)
    ensures Distinct(s)
  {
    forall i, j | 0 <= i < j < |s|
      ensures s[i] != s[j]
    {
      LessIsTotal(s[i], s[j]);
    }
  }

  function Insert(x: string, s: seq<string>): (r: seq<string>)
    ensures multiset(r) == multiset(s) + multiset{x}
  {
    if s == [] then [x]
    else if AtMost(x, s[0]) then [x] + s
    else
      assert s == [s[0]] + s[1..];
      [s[0]] + Insert(x, s[1..])
  }

  predicate Below(x: string, s: seq<string>) {
    forall y :: y in s ==> AtMost(x, y)
  }

  lemma SortedCons(x: string, s: seq<string>)
    requires Sorted(s) && Below(x, s)
    ensures Sorted([x] + s)
  {
  }

  lemma SortedHead(s: seq<string>)
    requires s != [] && Sorted(s)
    ensures Below(s[0], s[1..]) && Sorted(s[1..])
  {
  }

  lemma {:induction false} InsertKeepsOrder(x: string, s: seq<string>)
    requires Sorted(s)
    ensures Sorted(Insert(x, s))
  {
    if s != [] {
      SortedHead(s);
      if AtMost(x, s[0]) {
        forall y | y in s
          ensures AtMost(x, y)
        {
          if y != s[0] {
            assert y in s[1..];
            AtMostIsTransitive(x, s[0], y);
          }
        }
        SortedCons(x, s);
      } else {
        var rest := Insert(x, s[1..]);
        InsertKeepsOrder(x, s[1..]);
        LessIsTotal(x, s[0]);
        forall y | y in rest
          ensures AtMost(s[0], y)
        {
          assert y in multiset(rest);
          assert y == x || y in multiset(s[1..]);
        }
        SortedCons(s[0], rest);
      }
    }
  }

  // sort.Strings.
  function SortStrings(s: seq<string>): (r: seq<string>)
    ensures multiset(r) == multiset(s)
  {
    if s == [] then []
    else
      assert s == [s[0]] + s[1..];
      Insert(s[0], SortStrings(s[1..]))
  }

  lemma {:induction false} SortStringsSorts(s: seq<string>)
    ensures Sorted(SortStrings(s))
  {
    if s != [] {
      SortStringsSorts(s[1..]);
      InsertKeepsOrder(s[0], SortStrings(s[1..]));
    }
  }

  lemma DistinctRest(s: seq<string>)
    requires s != []
    ensures Distinct(s) <==> s[0] !in s[1..] && Distinct(s[1..])
  {
    if Distinct(s) {
      forall i, j | 0 <= i < j < |s[1..]|
        ensures s[1..][i] != s[1..][j]
      {
        assert s[i + 1] != s[j + 1];
      }
    } else {
      var i, j :| 0 <= i < j < |s| && s[i] == s[j];
      assert s[1..][j - 1] == s[j];
      if i > 0 {
        assert s[1..][i - 1] == s[i];
      }
    }
  }

  ghost predicate CountedOnce(m: multiset<string>) {
    forall x :: m[x] <= 1
  }

  lemma OneMore(m: multiset<string>, x: string)
    ensures CountedOnce(multiset{x} + m) <==> x !in m && CountedOnce(m)
  {
    var m' := multiset{x} + m;
    if CountedOnce(m') {
      assert m'[x] <= 1;
      forall y
        ensures m[y] <= 1
      {
        assert m'[y] <= 1;
      }
    }
  }

  lemma {:induction false} DistinctCounts(s: seq<string>)
    ensures Distinct(s) <==> CountedOnce(multiset(s))
  {
    if s != [] {
      var x, rest := s[0], s[1..];
      assert s == [x] + rest;
      assert multiset(s) == multiset{x} + multiset(rest);
      DistinctRest(s);
      DistinctCounts(rest);
      OneMore(multiset(rest), x);
    }
  }

  /** Sorting distinct strings puts the same strings in increasing order. */
  lemma SortOfDistinct(s: seq<string>)
    requires Distinct(s)
    ensures Increasing(SortStrings(s))
    ensures forall x :: x in SortStrings(s) <==> x in s
  {
    SortStringsSorts(s);
    DistinctCounts(s);
    DistinctCounts(SortStrings(s));
    SortedAndDistinct(SortStrings(s));
    forall x
      ensures x in SortStrings(s) <==> x in s
    {
      assert x in SortStrings(s) <==> x in multiset(SortStrings(s));
      assert x in s <==> x in multiset(s);
    }
  }
}
