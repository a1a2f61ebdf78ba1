/** Insertion sort by a strict order, and why its result does not depend on how the elements were listed. */
module Sorting {
  /** Moves `x` left past every greater element at the end of `s`. */
  function Insert<T>(x: T, s: seq<T>, less: (T, T) -> bool): (r: seq<T>)
    ensures |r| == |s| + 1
  {
    if s == [] || !less(x, s[|s| - 1]) then s + [x] else Insert(x, s[..|s| - 1], less) + [s[|s| - 1]]
  }

  function Sort<T>(s: seq<T>, less: (T, T) -> bool): (r: seq<T>)
    ensures |r| == |s|
  {
    if s == [] then [] else Insert(s[|s| - 1], Sort(s[..|s| - 1], less), less)
  }

  ghost predicate StrictOrder<T(!new)>(less: (T, T) -> bool) {
    && (forall a, b :: less(a, b) ==> !less(b, a))
    && (forall a, b, c :: less(a, b) && less(b, c) ==> less(a, c))
  }

  predicate Ascending<T>(s: seq<T>, less: (T, T) -> bool) {
    forall i, j | 0 <= i < j < |s| :: less(s[i], s[j])
  }

  /** Any two elements differ, and the order tells them apart. */
  predicate Comparable<T>(s: seq<T>, less: (T, T) -> bool) {
    forall i, j | 0 <= i < j < |s| :: less(s[i], s[j]) || less(s[j], s[i])
  }

  lemma {:induction false} InsertHas<T>(x: T, s: seq<T>, less: (T, T) -> bool, y: T)
    ensures y in Insert(x, s, less) <==> y == x || y in s
  {
    if s != [] && less(x, s[|s| - 1]) {
      assert s == s[..|s| - 1] + [s[|s| - 1]];
      InsertHas(x, s[..|s| - 1], less, y);
    }
  }

  lemma {:induction false} SortHas<T>(s: seq<T>, less: (T, T) -> bool, y: T)
    ensures y in Sort(s, less) <==> y in s
  {
    if s != [] {
      var init, last := s[..|s| - 1], s[|s| - 1];
      assert s == init + [last];
      SortHas(init, less, y);
      InsertHas(last, Sort(init, less), less, y);
    }
  }

  lemma {:induction false} InsertAscends<T(!new)>(x: T, s: seq<T>, less: (T, T) -> bool)
    requires StrictOrder(less) && Ascending(s, less) && forall y | y in s :: less(x, y) || less(y, x)
    ensures Ascending(Insert(x, s, less), less)
  {
    if s != [] {
      var init, last := s[..|s| - 1], s[|s| - 1];
      assert last in s;
      if less(x, last) {
        InsertAscends(x, init, less);
        var r := Insert(x, init, less);
        forall k | 0 <= k < |r| ensures less(r[k], last) { InsertHas(x, init, less, r[k]); }
      }
    }
  }

  lemma {:induction false} SortAscends<T(!new)>(s: seq<T>, less: (T, T) -> bool)
    requires StrictOrder(less) && Comparable(s, less)
    ensures Ascending(Sort(s, less), less)
  {
    if s != [] {
      var init, last := s[..|s| - 1], s[|s| - 1];
      SortAscends(init, less);
      forall y | y in Sort(init, less) ensures less(last, y) || less(y, last) {
        SortHas(init, less, y);
        var k :| 0 <= k < |init| && init[k] == y;
        assert s[k] == y;
      }
      InsertAscends(last, Sort(init, less), less);
    }
  }

  lemma LastOnce<T(!new)>(s: seq<T>, less: (T, T) -> bool, y: T)
    requires StrictOrder(less) && Ascending(s, less) && s != []
    ensures y in s[..|s| - 1] <==> y in s && y != s[|s| - 1]
  {}

  lemma {:induction false} AscendingIsUnique<T(!new)>(a: seq<T>, b: seq<T>, less: (T, T) -> bool)
    requires StrictOrder(less) && Ascending(a, less) && Ascending(b, less) && forall y :: y in a <==> y in b
    ensures a == b
  {
    assert (a != [] ==> a[0] in a) && (b != [] ==> b[0] in b);
    if a != [] {
      var m, n := |a| - 1, |b| - 1;
      assert a[m] in b && b[n] in a;
      forall y ensures y in a[..m] <==> y in b[..n] {
        LastOnce(a, less, y);
        LastOnce(b, less, y);
      }
      AscendingIsUnique(a[..m], b[..n], less);
      assert a == a[..m] + [a[m]] && b == b[..n] + [b[n]];
    }
  }

  /** Two lists of the same comparable elements sort to the same list. */
  lemma SortIsCanonical<T(!new)>(a: seq<T>, b: seq<T>, less: (T, T) -> bool)
    requires StrictOrder(less) && Comparable(a, less) && Comparable(b, less) && forall y :: y in a <==> y in b
    ensures Sort(a, less) == Sort(b, less)
  {
    SortAscends(a, less);
    SortAscends(b, less);
    forall y ensures (y in Sort(a, less) <==> y in a) && (y in Sort(b, less) <==> y in b) {
      SortHas(a, less, y);
      SortHas(b, less, y);
    }
    AscendingIsUnique(Sort(a, less), Sort(b, less), less);
  }
}
