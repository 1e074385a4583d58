/**
 A query with an `ORDER BY` clause: the elements of a finite set listed along a strict total
 order. `SortedUnique` is what makes such a listing well defined: there is only one.
 */
module Ordering {

  ghost predicate StrictTotal<T(!new)>(s: set<T>, before: (T, T) -> bool) {
    && (forall a :: a in s ==> !before(a, a))
    && (forall a, b :: a in s && b in s && a != b ==> before(a, b) || before(b, a))
    && (forall a, b, c :: a in s && b in s && c in s && before(a, b) && before(b, c) ==> before(a, c))
  }

  ghost predicate IsFirst<T(!new)>(s: set<T>, before: (T, T) -> bool, m: T) {
    m in s && forall x :: x in s && x != m ==> before(m, x)
  }

  lemma {:induction false} FirstExists<T(!new)>(s: set<T>, before: (T, T) -> bool)
    requires s != {} && StrictTotal(s, before)
    ensures exists m :: IsFirst(s, before, m)
    decreases |s|
  {
    var a :| a in s;
    var rest := s - {a};
    if rest == {} {
      assert s == {a};
      assert IsFirst(s, before, a);
    } else {
      FirstExists(rest, before);
      var m :| IsFirst(rest, before, m);
      if before(a, m) {
        assert IsFirst(s, before, a);
      } else {
        assert IsFirst(s, before, m);
      }
    }
  }

  /** The first row of the query: `ORDER BY ... LIMIT 1`. */
  ghost function First<T(!new)>(s: set<T>, before: (T, T) -> bool): (m: T)
    requires s != {} && StrictTotal(s, before)
    ensures IsFirst(s, before, m)
  {
    FirstExists(s, before);
    var m :| IsFirst(s, before, m); m
  }

  ghost function OrderBy<T(!new)>(s: set<T>, before: (T, T) -> bool): (q: seq<T>)
    requires StrictTotal(s, before)
    ensures |q| == |s|
    decreases |s|
  {
    if s == {} then [] else
      var m := First(s, before);
      [m] + OrderBy(s - {m}, before)
  }

  ghost predicate SortedBy<T(!new)>(q: seq<T>, before: (T, T) -> bool) {
    forall i, j :: 0 <= i < j < |q| ==> before(q[i], q[j])
  }

  /** A listing of `s`: in order, and with exactly the elements of `s`. */
  ghost predicate Lists<T(!new)>(q: seq<T>, s: set<T>, before: (T, T) -> bool) {
    && SortedBy(q, before)
    && (forall x :: x in q <==> x in s)
  }

  lemma {:induction false} OrderByLists<T(!new)>(s: set<T>, before: (T, T) -> bool)
    requires StrictTotal(s, before)
    ensures Lists(OrderBy(s, before), s, before)
    decreases |s|
  {
    if s != {} {
      var m := First(s, before);
      OrderByLists(s - {m}, before);
      ConsLists(m, OrderBy(s - {m}, before), s, before);
    }
  }

  lemma ConsLists<T(!new)>(m: T, rest: seq<T>, s: set<T>, before: (T, T) -> bool)
    requires IsFirst(s, before, m) && Lists(rest, s - {m}, before)
    ensures Lists([m] + rest, s, before)
  {
    var q := [m] + rest;
    forall x ensures x in q <==> x in s {
      assert x in q <==> x == m || x in rest;
    }
    forall i, j | 0 <= i < j < |q| ensures before(q[i], q[j]) {
      assert rest[j - 1] in rest;
    }
  }

  /** Listing everything of `a` before everything of `b`. */
  lemma ConcatLists<T(!new)>(p: seq<T>, q: seq<T>, a: set<T>, b: set<T>, before: (T, T) -> bool)
    requires Lists(p, a, before) && Lists(q, b, before)
    requires forall x, y :: x in a && y in b ==> before(x, y)
    ensures Lists(p + q, a + b, before)
  {
    forall x ensures x in p + q <==> x in a + b {
      assert x in p + q <==> x in p || x in q;
    }
    forall i, j | 0 <= i < j < |p + q| ensures before((p + q)[i], (p + q)[j]) {
      if i < |p| <= j {
        assert p[i] in p && q[j - |p|] in q;
      }
    }
  }

  /** Orders that agree on a set list it alike. */
  lemma SameOrderLists<T(!new)>(q: seq<T>, s: set<T>, before: (T, T) -> bool, before': (T, T) -> bool)
    requires Lists(q, s, before)
    requires forall x, y :: x in s && y in s && before(x, y) ==> before'(x, y)
    ensures Lists(q, s, before')
  {
    forall i, j | 0 <= i < j < |q| ensures before'(q[i], q[j]) {
      assert q[i] in q && q[j] in q && before(q[i], q[j]);
    }
  }

  /** There is at most one listing of a set, so any two ways of producing it agree. */
  lemma {:induction false} SortedUnique<T(!new)>(p: seq<T>, q: seq<T>, s: set<T>, before: (T, T) -> bool)
    requires StrictTotal(s, before)
    requires Lists(p, s, before) && Lists(q, s, before)
    ensures p == q
    decreases |p|
  {
    assert p != [] ==> p[0] in s;
    assert q != [] ==> q[0] in s;
    if p != [] && q != [] {
      HeadIsFirst(p, s, before);
      HeadIsFirst(q, s, before);
      FirstUnique(s, before, p[0], q[0]);
      TailLists(p, s, before);
      TailLists(q, s, before);
      SortedUnique(p[1..], q[1..], s - {p[0]}, before);
      assert p == [p[0]] + p[1..] && q == [q[0]] + q[1..];
    }
  }

  lemma FirstUnique<T(!new)>(s: set<T>, before: (T, T) -> bool, a: T, b: T)
    requires StrictTotal(s, before) && IsFirst(s, before, a) && IsFirst(s, before, b)
    ensures a == b
  {
  }

  lemma HeadIsFirst<T(!new)>(q: seq<T>, s: set<T>, before: (T, T) -> bool)
    requires q != [] && Lists(q, s, before)
    ensures IsFirst(s, before, q[0])
  {
    assert q[0] in q;
    forall x | x in s && x != q[0] ensures before(q[0], x) {
      var i :| 0 <= i < |q| && q[i] == x;
    }
  }

  lemma TailLists<T(!new)>(q: seq<T>, s: set<T>, before: (T, T) -> bool)
    requires q != [] && StrictTotal(s, before) && Lists(q, s, before)
    ensures Lists(q[1..], s - {q[0]}, before)
  {
    forall x ensures x in q[1..] <==> x in s - {q[0]} {
      if x in q[1..] {
        var i :| 0 <= i < |q| - 1 && q[1..][i] == x;
        assert q[i + 1] == x && before(q[0], x);
        assert x in q && q[0] in q;
      }
      if x in s - {q[0]} {
        var i :| 0 <= i < |q| && q[i] == x;
        assert q[1..][i - 1] == x;
      }
    }
  }

  function Take<T>(q: seq<T>, n: nat): seq<T> {
    if |q| <= n then q else q[..n]
  }

  /** Running the query: `ORDER BY` the given order, `LIMIT` the given count. */
  method Select<T(==, !new)>(s: set<T>, before: (T, T) -> bool, limit: nat) returns (q: seq<T>)
    requires StrictTotal(s, before)
    ensures q == Take(OrderBy(s, before), limit)
  {
    q := [];
    var rest := s;
    while rest != {} && |q| < limit
      invariant rest <= s && |q| <= limit
      invariant OrderBy(s, before) == q + OrderBy(rest, before)
      decreases |rest|
    {
      FirstExists(rest, before);
      var m :| m in rest && forall x :: x in rest && x != m ==> before(m, x);
      FirstUnique(rest, before, m, First(rest, before));
      assert q + OrderBy(rest, before) == (q + [m]) + OrderBy(rest - {m}, before);
      q, rest := q + [m], rest - {m};
    }
  }
}
