/** Sorting as the standard library promises it: the same elements, in order. */
module Sorting {
  /** A strict order in which "not before" is transitive too. */
  ghost predicate Orders<T(!new)>(less: (T, T) -> bool) {
    && (forall a, b :: less(a, b) ==> !less(b, a))
    && (forall a, b, c :: !less(b, a) && !less(c, b) ==> !less(c, a))
  }

  ghost predicate SortedBy<T>(s: seq<T>, less: (T, T) -> bool) {
    forall i, j :: 0 <= i < j < |s| ==> !less(s[j], s[i])
  }

  function Insert<T(!new)>(x: T, s: seq<T>, less: (T, T) -> bool): (r: seq<T>)
    ensures multiset(r) == multiset(s) + multiset{x} && |r| == |s| + 1
    ensures Orders(less) && SortedBy(s, less) ==> SortedBy(r, less)
  {
    if s == [] || !less(x, s[|s| - 1]) then
      InsertLast(x, s, less);
      s + [x]
    else
      InsertEarlier(x, s, Insert(x, s[..|s| - 1], less), less);
      Insert(x, s[..|s| - 1], less) + [s[|s| - 1]]
  }

  lemma InsertLast<T(!new)>(x: T, s: seq<T>, less: (T, T) -> bool)
    requires s == [] || !less(x, s[|s| - 1])
    ensures Orders(less) && SortedBy(s, less) ==> SortedBy(s + [x], less)
  {
    if Orders(less) && SortedBy(s, less) {
      forall i | 0 <= i < |s| ensures !less(x, s[i]) {
        assert i < |s| - 1 ==> !less(s[|s| - 1], s[i]);
      }
    }
  }

  lemma InsertEarlier<T(!new)>(x: T, s: seq<T>, front: seq<T>, less: (T, T) -> bool)
    requires s != [] && less(x, s[|s| - 1])
    requires multiset(front) == multiset(s[..|s| - 1]) + multiset{x}
    requires Orders(less) && SortedBy(s[..|s| - 1], less) ==> SortedBy(front, less)
    ensures multiset(front + [s[|s| - 1]]) == multiset(s) + multiset{x}
    ensures Orders(less) && SortedBy(s, less) ==> SortedBy(front + [s[|s| - 1]], less)
  {
    var last := s[|s| - 1];
    assert s == s[..|s| - 1] + [last];
    if Orders(less) && SortedBy(s, less) {
      forall i | 0 <= i < |front| ensures !less(last, front[i]) {
        assert front[i] in multiset(front);
        if front[i] != x {
          assert front[i] in s[..|s| - 1];
        }
      }
    }
  }

  function Sort<T(!new)>(s: seq<T>, less: (T, T) -> bool): (r: seq<T>)
    ensures multiset(r) == multiset(s) && |r| == |s|
    ensures Orders(less) ==> SortedBy(r, less)
  {
    if s == [] then []
    else
      assert s == s[..|s| - 1] + [s[|s| - 1]];
      Insert(s[|s| - 1], Sort(s[..|s| - 1], less), less)
  }

  lemma SameElements<T>(a: seq<T>, b: seq<T>)
    requires multiset(a) == multiset(b)
    ensures forall x :: x in a <==> x in b
  {
    forall x ensures x in a <==> x in b {
      assert x in multiset(a) <==> x in multiset(b);
    }
  }
}
