/** Sorting by a strict order, as the built-in sort of the source does it for elements that all differ. */
module Sorting {

  function InsertBy<T>(s: seq<T>, x: T, less: (T, T) -> bool): seq<T> {
    if s == [] || less(x, s[0]) then [x] + s else [s[0]] + InsertBy(s[1..], x, less)
  }

  function SortBy<T>(s: seq<T>, less: (T, T) -> bool): seq<T> {
    if s == [] then [] else InsertBy(SortBy(s[..|s| - 1], less), s[|s| - 1], less)
  }

  ghost predicate Ordered<T>(s: seq<T>, less: (T, T) -> bool) {
    forall i, j | 0 <= i < j < |s| :: less(s[i], s[j])
  }

  ghost predicate StrictOrder<T(!new)>(less: (T, T) -> bool) {
    && (forall x, y, z | less(x, y) && less(y, z) :: less(x, z))
    && (forall x, y | less(x, y) :: !less(y, x))
  }

  /** Any two of the elements differ in the order. */
  ghost predicate Comparable<T>(s: seq<T>, less: (T, T) -> bool) {
    forall i, j | 0 <= i < j < |s| :: less(s[i], s[j]) || less(s[j], s[i])
  }

  lemma {:induction false} InsertAdds<T>(s: seq<T>, x: T, less: (T, T) -> bool)
    ensures multiset(InsertBy(s, x, less)) == multiset(s) + multiset{x}
  {
    if s != [] && !less(x, s[0]) {
      InsertAdds(s[1..], x, less);
      assert s == [s[0]] + s[1..];
    }
  }

  lemma {:induction false} InsertOrders<T(!new)>(s: seq<T>, x: T, less: (T, T) -> bool)
    requires StrictOrder(less) && Ordered(s, less) && forall y | y in multiset(s) :: less(x, y) || less(y, x)
    ensures Ordered(InsertBy(s, x, less), less)
  {
    if s == [] || less(x, s[0]) {
      forall i | 0 <= i < |s| ensures less(x, s[i]) {
        assert i > 0 ==> less(s[0], s[i]);
      }
    } else {
      assert s[0] in multiset(s);
      assert s == [s[0]] + s[1..];
      InsertOrders(s[1..], x, less);
      InsertAdds(s[1..], x, less);
      FirstStaysFirst(s, InsertBy(s[1..], x, less), x, less);
    }
  }

  lemma FirstStaysFirst<T>(s: seq<T>, rest: seq<T>, x: T, less: (T, T) -> bool)
    requires Ordered(s, less) && s != [] && less(s[0], x)
    requires multiset(rest) == multiset(s[1..]) + multiset{x}
    ensures forall i | 0 <= i < |rest| :: less(s[0], rest[i])
  {
    forall i | 0 <= i < |rest| ensures less(s[0], rest[i]) {
      assert rest[i] in multiset(rest);
      if rest[i] != x {
        assert rest[i] in multiset(s[1..]);
        var j :| 0 <= j < |s[1..]| && s[1..][j] == rest[i];
        assert less(s[0], s[j + 1]);
      }
    }
  }

  /** Sorting keeps the elements. */
  lemma {:induction false} SortKeeps<T>(s: seq<T>, less: (T, T) -> bool)
    ensures multiset(SortBy(s, less)) == multiset(s)
  {
    if s != [] {
      SortKeeps(s[..|s| - 1], less);
      InsertAdds(SortBy(s[..|s| - 1], less), s[|s| - 1], less);
      assert s == s[..|s| - 1] + [s[|s| - 1]];
    }
  }

  /** And puts them in order. */
  lemma {:induction false} SortOrders<T(!new)>(s: seq<T>, less: (T, T) -> bool)
    requires StrictOrder(less) && Comparable(s, less)
    ensures Ordered(SortBy(s, less), less)
  {
    if s != [] {
      var front, last := s[..|s| - 1], s[|s| - 1];
      SortOrders(front, less);
      SortKeeps(front, less);
      forall y | y in multiset(SortBy(front, less)) ensures less(last, y) || less(y, last) {
        assert y in multiset(front);
        var i :| 0 <= i < |front| && front[i] == y;
        assert less(s[i], s[|s| - 1]) || less(s[|s| - 1], s[i]);
      }
      InsertOrders(SortBy(front, less), last, less);
    }
  }

  /** There is one order of the same elements only. */
  lemma {:induction false} OrderIsUnique<T(!new)>(a: seq<T>, b: seq<T>, less: (T, T) -> bool)
    requires StrictOrder(less) && Ordered(a, less) && Ordered(b, less) && multiset(a) == multiset(b)
    ensures a == b
  {
    assert |a| == |multiset(a)| == |multiset(b)| == |b|;
    if a != [] {
      FirstIsLeast(a, b, less);
      FirstIsLeast(b, a, less);
      WithoutFirst(a, b);
      OrderIsUnique(a[1..], b[1..], less);
    }
  }

  lemma FirstIsLeast<T>(a: seq<T>, b: seq<T>, less: (T, T) -> bool)
    requires Ordered(a, less) && a != [] && b != [] && multiset(a) == multiset(b)
    ensures b[0] == a[0] || less(a[0], b[0])
  {
    assert b[0] in multiset(a);
    var i :| 0 <= i < |a| && a[i] == b[0];
  }

  lemma WithoutFirst<T>(a: seq<T>, b: seq<T>)
    requires a != [] && b != [] && a[0] == b[0] && multiset(a) == multiset(b)
    ensures multiset(a[1..]) == multiset(b[1..])
  {
    assert a == [a[0]] + a[1..] && b == [b[0]] + b[1..];
    assert multiset(a[1..]) == multiset(a) - multiset{a[0]};
    assert multiset(b[1..]) == multiset(b) - multiset{b[0]};
  }
}
