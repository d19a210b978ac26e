/** Sorting a finite set by a total preorder. */
module Ordering {
  ghost predicate Total<T(!new)>(le: (T, T) -> bool) {
    && (forall x, y :: le(x, y) || le(y, x))
    && (forall x, y, z :: le(x, y) && le(y, z) ==> le(x, z))
  }

  ghost predicate Sorted<T>(le: (T, T) -> bool, s: seq<T>) {
    forall i, j | 0 <= i < j < |s| :: le(s[i], s[j])
  }

  ghost predicate Distinct<T>(s: seq<T>) {
    forall i, j | 0 <= i < j < |s| :: s[i] != s[j]
  }

  function Elements<T>(s: seq<T>): set<T> { set x | x in s }

  method Least<T(==, !new)>(c: set<T>, le: (T, T) -> bool) returns (m: T)
    requires Total(le) && c != {}
    ensures m in c && forall x | x in c :: le(m, x)
  {
    m :| m in c;
    var rest := c - {m};
    while rest != {}
      invariant m in c && rest <= c
      invariant forall x | x in c - rest :: le(m, x)
      decreases rest
    {
      var x :| x in rest;
      if !le(m, x) {
        m := x;
      }
      rest := rest - {x};
    }
  }

  lemma OneMore<T>(le: (T, T) -> bool, s: seq<T>, m: T)
    requires Distinct(s) && Sorted(le, s) && m !in s && forall x | x in s :: le(x, m)
    ensures Elements(s + [m]) == Elements(s) + {m} && Distinct(s + [m]) && Sorted(le, s + [m])
  {
    assert forall i | 0 <= i < |s| :: s[i] in s;
  }

  method Sort<T(==, !new)>(c: set<T>, le: (T, T) -> bool) returns (s: seq<T>)
    requires Total(le)
    ensures Elements(s) == c && |s| == |c| && Distinct(s) && Sorted(le, s)
  {
    s := [];
    var rest := c;
    while rest != {}
      invariant rest <= c && Elements(s) == c - rest && |s| + |rest| == |c|
      invariant Distinct(s) && Sorted(le, s)
      invariant forall x, y | x in s && y in rest :: le(x, y)
      decreases rest
    {
      var m := Least(rest, le);
      assert m !in Elements(s);
      OneMore(le, s, m);
      s := s + [m];
      rest := rest - {m};
    }
  }

  /** A prefix of a sorted list holds its least elements. */
  lemma PrefixIsLeast<T>(le: (T, T) -> bool, s: seq<T>, n: nat)
    requires Sorted(le, s) && Distinct(s) && n <= |s|
    ensures |Elements(s[..n])| == n
    ensures forall x, y | x in s[..n] && y in s && y !in s[..n] :: le(x, y)
  {
    DistinctCounts(s[..n]);
    forall x, y | x in s[..n] && y in s && y !in s[..n] ensures le(x, y) {
      var i :| 0 <= i < n && s[i] == x;
      var j :| 0 <= j < |s| && s[j] == y;
      assert forall l | 0 <= l < n :: s[l] in s[..n];
    }
  }

  lemma DistinctCounts<T>(s: seq<T>)
    requires Distinct(s)
    ensures |Elements(s)| == |s|
  {
    if s != [] {
      var n := |s| - 1;
      DistinctCounts(s[..n]);
      assert Elements(s) == Elements(s[..n]) + {s[n]};
    }
  }

  /** The first `limit` elements of a set in order. */
  method First<T(==, !new)>(c: set<T>, le: (T, T) -> bool, limit: nat) returns (out: seq<T>)
    requires Total(le)
    ensures Distinct(out) && Sorted(le, out) && Elements(out) <= c
    ensures |out| == if |c| <= limit then |c| else limit
    ensures forall x | x in c && x !in out :: |out| == limit && forall y | y in out :: le(y, x)
  {
    var order := Sort(c, le);
    var n := if |order| <= limit then |order| else limit;
    PrefixIsLeast(le, order, n);
    out := order[..n];
    assert forall x | x in Elements(out) :: x in Elements(order);
    forall x | x in c && x !in out ensures |out| == limit && forall y | y in out :: le(y, x) {
      assert x in Elements(order);
      assert n == |order| ==> out == order;
    }
  }
}
