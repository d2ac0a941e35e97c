/** The search both namers make: the first number from a start on whose fold key is free. A key is given by
    a function of the number, and different numbers have different keys. */
module FreeNumber {
  /** From a number on, different numbers have different keys. */
  ghost predicate Tells(key: nat -> string, from: nat) {
    forall i, j :: from <= i && from <= j && key(i) == key(j) ==> i == j
  }

  ghost predicate TakenBetween(key: nat -> string, used: set<string>, lo: nat, hi: nat) {
    forall k :: lo <= k < hi ==> key(k) in used
  }

  /** The first number from i on whose key is free. A key found taken is never met again, so the search
      drops it. */
  function FirstFree(key: nat -> string, used: set<string>, i: nat): (r: nat)
    ensures r >= i
    decreases |used|
  {
    if key(i) !in used then i else FirstFree(key, used - {key(i)}, i + 1)
  }

  lemma {:induction false} FirstFreeIsFree(key: nat -> string, used: set<string>, i: nat)
    requires Tells(key, i)
    ensures var r := FirstFree(key, used, i);
      i <= r <= i + |used| && key(r) !in used && TakenBetween(key, used, i, r)
    decreases |used|
  {
    if key(i) in used {
      FirstFreeIsFree(key, used - {key(i)}, i + 1);
    }
  }

  lemma FirstFreeUnique(key: nat -> string, used: set<string>, i: nat, r: nat)
    requires Tells(key, i) && i <= r && key(r) !in used && TakenBetween(key, used, i, r)
    ensures FirstFree(key, used, i) == r
  {
    FirstFreeIsFree(key, used, i);
  }

  lemma {:induction false} SubsetSize(a: set<string>, b: set<string>)
    requires a <= b
    ensures |a| <= |b|
  {
    if a != {} {
      var x :| x in a;
      SubsetSize(a - {x}, b - {x});
    }
  }

  /** The loop over numbers: the keys it meets differ, so it ends within |used| steps. */
  method Search(key: nat -> string, used: set<string>, start: nat) returns (i: nat)
    requires Tells(key, start)
    ensures i == FirstFree(key, used, start)
  {
    hide FirstFree;
    i := start;
    ghost var tried: set<string> := {};
    while key(i) in used
      invariant start <= i && TakenBetween(key, used, start, i)
      invariant tried <= used && |tried| == i - start <= |used|
      invariant forall k :: k in tried ==> exists j :: start <= j < i && key(j) == k
      decreases |used| - (i - start)
    {
      assert key(i) !in tried;
      tried := tried + {key(i)};
      SubsetSize(tried, used);
      i := i + 1;
    }
    FirstFreeUnique(key, used, start, i);
  }
}
