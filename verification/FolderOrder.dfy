/** The order of folder paths, segment by segment, and why sorting a tree by it lists it depth first. */
module FolderOrder {
  import opened Text
  import Sorting

  /** Lists of segments compared from the left; a list comes before those it begins. */
  predicate Before(a: seq<string>, b: seq<string>) {
    if b == [] then false
    else if a == [] then true
    else if a[0] != b[0] then Less(a[0], b[0])
    else Before(a[1..], b[1..])
  }

  predicate PathBefore(a: string, b: string) { Before(Split(a, '/'), Split(b, '/')) }

  datatype Halves = Halves(head: string, rest: string, more: bool)

  /** strings.Cut at the first slash. */
  function Cut(s: string): Halves {
    if s == "" then Halves("", "", false)
    else if s[0] == '/' then Halves("", s[1..], true)
    else
      var h := Cut(s[1..]);
      Halves([s[0]] + h.head, h.rest, h.more)
  }

  lemma {:induction false} CutSplits(s: string)
    ensures var h := Cut(s);
      |h.rest| <= |s| && (h.more ==> |h.rest| < |s|)
      && Split(s, '/') == [h.head] + (if h.more then Split(h.rest, '/') else [])
  {
    if s != "" && s[0] != '/' {
      CutSplits(s[1..]);
    }
  }

  /** pathLess. */
  method PathLess(a: string, b: string) returns (r: bool)
    ensures r == PathBefore(a, b)
  {
    hide Split;
    hide Cut;
    var x, y := a, b;
    while true
      invariant PathBefore(x, y) == PathBefore(a, b)
      decreases |x|
    {
      var xh, yh := Cut(x), Cut(y);
      CutSplits(x);
      CutSplits(y);
      BeforeStep(xh.head, if xh.more then Split(xh.rest, '/') else [], yh.head, if yh.more then Split(yh.rest, '/') else []);
      if xh.head != yh.head {
        return Less(xh.head, yh.head);
      }
      if !xh.more {
        return yh.more;
      }
      if !yh.more {
        return false;
      }
      x, y := xh.rest, yh.rest;
    }
  }

  lemma BeforeStep(a: string, as': seq<string>, b: string, bs: seq<string>)
    ensures Before([a] + as', [b] + bs) == if a != b then Less(a, b) else Before(as', bs)
    ensures as' == [] ==> Before(as', bs) == (bs != [])
    ensures bs == [] ==> !Before(as', bs)
  {
    assert ([a] + as')[1..] == as' && ([b] + bs)[1..] == bs;
  }

  // ---- a strict total order

  lemma {:induction false} BeforeTrichotomy(a: seq<string>, b: seq<string>)
    ensures a == b || Before(a, b) || Before(b, a)
    ensures !(Before(a, b) && Before(b, a)) && !Before(a, a)
  {
    if a != [] {
      BeforeTrichotomy(a[1..], a[1..]);
      if b != [] {
        LessTrichotomy(a[0], b[0]);
        BeforeTrichotomy(a[1..], b[1..]);
        assert a == [a[0]] + a[1..] && b == [b[0]] + b[1..];
      }
    }
  }

  lemma {:induction false} BeforeTransitive(a: seq<string>, b: seq<string>, c: seq<string>)
    requires Before(a, b) && Before(b, c)
    ensures Before(a, c)
  {
    if a != [] {
      LessTrichotomy(a[0], b[0]);
      if a[0] == b[0] == c[0] {
        BeforeTransitive(a[1..], b[1..], c[1..]);
      } else if a[0] != b[0] && b[0] != c[0] {
        LessTransitive(a[0], b[0], c[0]);
      }
    }
  }

  lemma NotBeforeTransitive(a: seq<string>, b: seq<string>, c: seq<string>)
    requires !Before(b, a) && !Before(c, b)
    ensures !Before(c, a)
  {
    BeforeTrichotomy(a, b);
    BeforeTrichotomy(b, c);
    if Before(c, a) && Before(a, b) {
      BeforeTransitive(c, a, b);
    }
  }

  /** pathLess is a strict total order on paths. */
  lemma PathBeforeOrders()
    ensures Sorting.Orders(PathBefore)
    ensures forall a, b :: a == b || PathBefore(a, b) || PathBefore(b, a)
  {
    forall a, b ensures (a == b || PathBefore(a, b) || PathBefore(b, a)) && (PathBefore(a, b) ==> !PathBefore(b, a)) {
      BeforeTrichotomy(Split(a, '/'), Split(b, '/'));
      JoinSplit(a, '/');
      JoinSplit(b, '/');
    }
    forall a, b, c | !PathBefore(b, a) && !PathBefore(c, b) ensures !PathBefore(c, a) {
      NotBeforeTransitive(Split(a, '/'), Split(b, '/'), Split(c, '/'));
    }
  }

  // ---- depth first

  lemma {:induction false} PrefixBefore(a: seq<string>, c: seq<string>)
    requires a < c
    ensures Before(a, c)
  {
    if a != [] {
      PrefixBefore(a[1..], c[1..]);
    }
  }

  /** What lies between a folder and one below it is below it too. */
  lemma {:induction false} BetweenIsBelow(a: seq<string>, b: seq<string>, c: seq<string>)
    requires a <= c && !Before(b, a) && !Before(c, b)
    ensures a <= b
  {
    if a != [] {
      assert b != [];
      assert a[0] == c[0];
      LessTrichotomy(a[0], b[0]);
      BetweenIsBelow(a[1..], b[1..], c[1..]);
      assert b == [b[0]] + b[1..] && a == [a[0]] + a[1..];
    }
  }

  ghost predicate StrictlySorted(trails: seq<seq<string>>) {
    forall i, j :: 0 <= i < j < |trails| ==> Before(trails[i], trails[j])
  }

  /** Every folder's ancestors are listed too. */
  ghost predicate Closed(trails: seq<seq<string>>) {
    forall k, n :: 0 <= k < |trails| && 1 <= n < |trails[k]| ==> trails[k][..n] in trails
  }

  /** Depth first: a folder's parent is listed before it and everything between the two is the parent's. */
  ghost predicate ParentBefore(trails: seq<seq<string>>, k: nat)
    requires k < |trails| && |trails[k]| > 1
  {
    exists i :: 0 <= i < k && trails[i] == trails[k][..|trails[k]| - 1] && forall j :: i <= j <= k ==> trails[i] <= trails[j]
  }

  /** The folders below a folder are one block of the listing, right after it. */
  ghost predicate SubtreesContiguous(trails: seq<seq<string>>) {
    forall i, j, k :: 0 <= i <= j <= k < |trails| && trails[i] <= trails[k] ==> trails[i] <= trails[j]
  }

  /** Sorting any closed set of folders by the order lists them depth first. */
  lemma SortedIsDepthFirst(trails: seq<seq<string>>)
    requires StrictlySorted(trails) && Closed(trails)
    ensures SubtreesContiguous(trails)
    ensures forall k :: 0 <= k < |trails| && |trails[k]| > 1 ==> ParentBefore(trails, k)
  {
    forall i, j, k | 0 <= i <= j <= k < |trails| && trails[i] <= trails[k] ensures trails[i] <= trails[j] {
      BeforeTrichotomy(trails[i], trails[j]);
      BeforeTrichotomy(trails[j], trails[k]);
      BetweenIsBelow(trails[i], trails[j], trails[k]);
    }
    forall k | 0 <= k < |trails| && |trails[k]| > 1 ensures ParentBefore(trails, k) {
      var parent := trails[k][..|trails[k]| - 1];
      assert parent in trails;
      var i :| 0 <= i < |trails| && trails[i] == parent;
      PrefixBefore(parent, trails[k]);
      BeforeTrichotomy(parent, trails[k]);
      assert i < k;
    }
  }
}
