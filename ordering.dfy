/** Orders used by SQL `ORDER BY`, and the sorted enumeration of a finite set of rows. */
module Ordering {

  /** Code-point lexicographic order on text: `a` sorts strictly before `b`. */
  predicate StrLt(a: string, b: string)
  {
    |b| > 0 && (|a| == 0 || a[0] < b[0] || (a[0] == b[0] && StrLt(a[1..], b[1..])))
  }

  lemma {:induction false} StrLtIrreflexive(a: string)
    ensures !StrLt(a, a)
  {
    if |a| > 0 {
      StrLtIrreflexive(a[1..]);
    }
  }

  lemma {:induction false} StrLtTransitive(a: string, b: string, c: string)
    requires StrLt(a, b) && StrLt(b, c)
    ensures StrLt(a, c)
  {
    if |a| > 0 && a[0] == b[0] && b[0] == c[0] {
      StrLtTransitive(a[1..], b[1..], c[1..]);
    }
  }

  lemma {:induction false} StrLtTotal(a: string, b: string)
    ensures a == b || StrLt(a, b) || StrLt(b, a)
  {
    if |a| > 0 && |b| > 0 && a[0] == b[0] {
      StrLtTotal(a[1..], b[1..]);
      if a[1..] == b[1..] {
        assert a == [a[0]] + a[1..] && b == [b[0]] + b[1..];
      }
    }
  }

  /** No two strings each sort before the other. */
  lemma StrLtAsymmetric(a: string, b: string)
    ensures !(StrLt(a, b) && StrLt(b, a))
  {
    StrLtIrreflexive(a);
    if StrLt(a, b) && StrLt(b, a) {
      StrLtTransitive(a, b, a);
    }
  }

  /** The three facts above, for every string at once. */
  lemma StrLtIsStrictTotal()
    ensures forall a :: !StrLt(a, a)
    ensures forall a, b, c :: StrLt(a, b) && StrLt(b, c) ==> StrLt(a, c)
    ensures forall a, b :: a == b || StrLt(a, b) || StrLt(b, a)
  {
    forall a { StrLtIrreflexive(a); }
    forall a, b, c | StrLt(a, b) && StrLt(b, c) { StrLtTransitive(a, b, c); }
    forall a, b { StrLtTotal(a, b); }
  }

  /** `lt` is irreflexive, transitive and total: a strict total order. */
  ghost predicate StrictTotalOrder<T(!new)>(lt: (T, T) -> bool)
  {
    && (forall x :: !lt(x, x))
    && (forall x, y, z :: lt(x, y) && lt(y, z) ==> lt(x, z))
    && (forall x, y :: x == y || lt(x, y) || lt(y, x))
  }

  /** Every element of `s` comes strictly before every later one. */
  predicate Ascending<T>(s: seq<T>, lt: (T, T) -> bool)
  {
    forall i, j :: 0 <= i < j < |s| ==> lt(s[i], s[j])
  }

  /** `m` is the element of `s` that comes before all the others. */
  predicate IsLeast<T>(m: T, s: set<T>, lt: (T, T) -> bool)
  {
    m in s && forall y :: y in s && y != m ==> lt(m, y)
  }

  lemma {:induction false} LeastExists<T(!new)>(s: set<T>, lt: (T, T) -> bool)
    requires StrictTotalOrder(lt) && s != {}
    ensures exists m :: IsLeast(m, s, lt)
    decreases |s|
  {
    var x :| x in s;
    if s == {x} {
      assert IsLeast(x, s, lt);
    } else {
      LeastExists(s - {x}, lt);
      var m :| IsLeast(m, s - {x}, lt);
      if lt(m, x) {
        assert IsLeast(m, s, lt);
      } else {
        forall y | y in s && y != x
          ensures lt(x, y)
        {
          if y != m { assert lt(m, y); }
        }
        assert IsLeast(x, s, lt);
      }
    }
  }

  lemma LeastUnique<T(!new)>(s: set<T>, lt: (T, T) -> bool)
    requires StrictTotalOrder(lt)
    ensures forall a, b :: IsLeast(a, s, lt) && IsLeast(b, s, lt) ==> a == b
  {
  }

  /** The elements of a finite set, each exactly once, in ascending `lt` order:
      what a query with `ORDER BY` returns for the rows it selects. */
  function SortSet<T(!new)>(s: set<T>, lt: (T, T) -> bool): (r: seq<T>)
    requires StrictTotalOrder(lt)
    ensures |r| == |s|
    ensures forall x :: x in r <==> x in s
    ensures Ascending(r, lt)
    decreases |s|
  {
    if s == {} then []
    else
      LeastExists(s, lt);
      LeastUnique(s, lt);
      var m :| IsLeast(m, s, lt);
      [m] + SortSet(s - {m}, lt)
  }

  /** The first `n` elements of `s`, or all of them when it is shorter. */
  function Take<T>(s: seq<T>, n: nat): (r: seq<T>)
    ensures |r| == if n < |s| then n else |s|
    ensures r == s[..|r|]
  {
    if n < |s| then s[..n] else s
  }

  /** A prefix of an ascending sequence is ascending, and comes before everything it leaves out. */
  lemma TakeLeast<T>(all: seq<T>, n: nat, lt: (T, T) -> bool)
    requires Ascending(all, lt)
    ensures Ascending(Take(all, n), lt)
    ensures var r := Take(all, n);
      forall x, i :: x in all && x !in r && 0 <= i < |r| ==> lt(r[i], x)
  {
    var r := Take(all, n);
    forall x, i | x in all && x !in r && 0 <= i < |r| ensures lt(r[i], x) {
      var j :| 0 <= j < |all| && all[j] == x;
      assert j >= |r|;
      assert r[i] == all[i];
    }
  }
}
