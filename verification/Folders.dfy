/** The folder paths of an archive: their canonical spelling, the ids of their nodes, and the order that
    lists them depth first. A canonical path is the list of its segments joined by slashes. */
module Folders {
  import opened Wrappers
  import opened Text

  const MAX_DEPTH := 300
  const MAX_NAME := 1024

  datatype Shape = TooDeep | NameTooBig | TooMany | IdsTooBig

  datatype Result<T> = Ok(value: T) | Refused(shape: Shape)

  // ---- the canonical spelling

  function Filled(segs: seq<string>): (r: seq<string>)
    ensures forall i :: 0 <= i < |r| ==> r[i] != "" && r[i] in segs
    ensures |r| <= |segs| && (|r| == |segs| ==> r == segs)
  {
    if segs == [] then [] else (if segs[0] == "" then [] else [segs[0]]) + Filled(segs[1..])
  }

  /** The segments a folder's names spell. */
  function Segments(folder: string): (r: seq<string>)
    ensures forall i :: 0 <= i < |r| ==> r[i] != "" && '/' !in r[i]
  {
    Filled(Split(folder, '/'))
  }

  /** What is wrong with a folder's shape first, from the left; `depth` filled segments came before. */
  function ShapeFault(segs: seq<string>, depth: nat): Option<Shape> {
    if segs == [] then None
    else if segs[0] == "" then ShapeFault(segs[1..], depth)
    else if |segs[0]| > MAX_NAME then Some(NameTooBig)
    else if depth + 1 > MAX_DEPTH then Some(TooDeep)
    else ShapeFault(segs[1..], depth + 1)
  }

  function Canon(folder: string): Result<string> {
    var fault := ShapeFault(Split(folder, '/'), 0);
    if fault.Some? then Refused(fault.value) else Ok(Join(Segments(folder), '/'))
  }

  lemma {:induction false} FaultMeans(segs: seq<string>, depth: nat)
    ensures ShapeFault(segs, depth).None? <==>
      (forall i :: 0 <= i < |segs| ==> |segs[i]| <= MAX_NAME) && (|Filled(segs)| > 0 ==> depth + |Filled(segs)| <= MAX_DEPTH)
  {
    if segs != [] {
      FaultMeans(segs[1..], if segs[0] == "" then depth else depth + 1);
      assert segs == [segs[0]] + segs[1..];
      assert segs[0] in segs;
    }
  }

  /** The pieces from a place on, none past the end. */
  function Rest(folder: string, start: nat): seq<string>
    requires start <= |folder| + 1
  {
    if start <= |folder| then Split(folder[start..], '/') else []
  }

  /** The scan is at i, in the piece that began at start, after the pieces done. */
  ghost predicate Scanning(folder: string, done: seq<string>, start: nat, i: nat) {
    && start <= i <= |folder| + 1 && (i > |folder| ==> start == i)
    && (i <= |folder| ==> '/' !in folder[start..i])
    && Split(folder, '/') == done + Rest(folder, start)
  }

  lemma ScanBegins(folder: string)
    ensures Scanning(folder, [], 0, 0)
  {
    assert folder[0..] == folder;
    assert [] + Split(folder, '/') == Split(folder, '/');
  }

  lemma ScanSkip(folder: string, done: seq<string>, start: nat, i: nat)
    requires Scanning(folder, done, start, i) && i < |folder| && folder[i] != '/'
    ensures Scanning(folder, done, start, i + 1)
  {
    hide Rest;
    hide Split;
    assert folder[start..i + 1] == folder[start..i] + [folder[i]];
  }

  lemma CutOut(s: string, start: nat, i: nat)
    requires start <= i < |s|
    ensures s[start..] == s[start..i] + [s[i]] + s[i + 1..]
  {
  }

  lemma RestPiece(folder: string, start: nat, i: nat)
    requires start <= i <= |folder| && '/' !in folder[start..i] && (i < |folder| ==> folder[i] == '/')
    ensures Rest(folder, start) == [folder[start..i]] + Rest(folder, i + 1)
  {
    var seg := folder[start..i];
    if i < |folder| {
      CutOut(folder, start, i);
      SplitFirst(seg, folder[i + 1..], '/');
    } else {
      SplitPlain(seg, '/');
      assert folder[start..] == seg;
    }
  }

  lemma ScanPiece(folder: string, done: seq<string>, start: nat, i: nat)
    requires Scanning(folder, done, start, i) && i <= |folder| && (i < |folder| ==> folder[i] == '/')
    ensures Scanning(folder, done + [folder[start..i]], i + 1, i + 1)
    ensures Rest(folder, start) == [folder[start..i]] + Rest(folder, i + 1)
  {
    RestPiece(folder, start, i);
    MovePiece(Split(folder, '/'), done, folder[start..i], Rest(folder, start), Rest(folder, i + 1));
    hide Rest;
    hide Split;
  }

  lemma MovePiece(all: seq<string>, done: seq<string>, seg: string, from: seq<string>, rest: seq<string>)
    requires all == done + from && from == [seg] + rest
    ensures all == done + [seg] + rest
  {
  }

  /** The first loop of archiveCanonFolder: the depth, and whether any segment is empty. */
  method ScanFolder(folder: string) returns (fault: Option<Shape>, rewrite: bool)
    ensures fault == ShapeFault(Split(folder, '/'), 0)
    ensures fault.None? ==> (rewrite <==> Segments(folder) != Split(folder, '/'))
  {
    hide ShapeFault;
    hide Split;
    hide Scanning;
    hide Filled;
    var depth, start, i := 0, 0, 0;
    rewrite := false;
    ghost var done: seq<string> := [];
    ScanBegins(folder);
    ScanBounds(folder, done, start, i);
    NoPieces(depth);
    while i <= |folder|
      invariant start <= i <= |folder| + 1 && Scanning(folder, done, start, i)
      invariant ShapeFault(Split(folder, '/'), 0) == ShapeFault(Rest(folder, start), depth)
      invariant rewrite <==> Filled(done) != done
    {
      if i < |folder| && folder[i] != '/' {
        ScanSkip(folder, done, start, i);
        i := i + 1;
        continue;
      }
      ScanPiece(folder, done, start, i);
      var seg := folder[start..i];
      FaultStep(seg, Rest(folder, i + 1), depth);
      FilledSame(done, seg);
      var n := i - start;
      if n == 0 {
        rewrite := true;
      } else if n > MAX_NAME {
        return Some(NameTooBig), rewrite;
      } else {
        depth := depth + 1;
        if depth > MAX_DEPTH {
          return Some(TooDeep), rewrite;
        }
      }
      done := done + [seg];
      start, i := i + 1, i + 1;
    }
    ScanBounds(folder, done, start, i);
    NoPieces(depth);
    return None, rewrite;
  }

  lemma ScanBounds(folder: string, done: seq<string>, start: nat, i: nat)
    requires Scanning(folder, done, start, i)
    ensures start == 0 ==> Rest(folder, start) == Split(folder, '/')
    ensures i > |folder| ==> Rest(folder, start) == [] && done == Split(folder, '/')
  {
    assert folder[0..] == folder;
  }

  lemma NoPieces(depth: nat)
    ensures ShapeFault([], depth).None? && Filled([]) == []
  {
  }

  lemma FaultStep(seg: string, rest: seq<string>, depth: nat)
    ensures ShapeFault([seg] + rest, depth) ==
      if seg == "" then ShapeFault(rest, depth)
      else if |seg| > MAX_NAME then Some(NameTooBig)
      else if depth + 1 > MAX_DEPTH then Some(TooDeep)
      else ShapeFault(rest, depth + 1)
  {
    assert ([seg] + rest)[1..] == rest;
  }

  lemma {:induction false} FilledMore(done: seq<string>, seg: string)
    ensures Filled(done + [seg]) == if seg == "" then Filled(done) else Filled(done) + [seg]
  {
    if done == [] {
      assert [seg][1..] == [];
    } else {
      FilledMore(done[1..], seg);
      assert (done + [seg])[1..] == done[1..] + [seg];
    }
  }

  lemma FilledSame(done: seq<string>, seg: string)
    ensures Filled(done + [seg]) == done + [seg] <==> Filled(done) == done && seg != ""
  {
    FilledMore(done, seg);
    var filled := Filled(done);
    assert |filled| <= |done|;
    hide Filled;
    assert (filled + [seg])[..|filled|] == filled && (done + [seg])[..|done|] == done;
  }

  lemma {:induction false} JoinMore(segs: seq<string>, seg: string)
    ensures Join(segs + [seg], '/') == if segs == [] then seg else Join(segs, '/') + "/" + seg
  {
    if |segs| == 1 {
      assert (segs + [seg])[1..] == [seg];
    } else if |segs| > 1 {
      JoinMore(segs[1..], seg);
      assert (segs + [seg])[1..] == segs[1..] + [seg];
    }
  }

  lemma {:induction false} JoinEmpty(segs: seq<string>)
    requires forall i :: 0 <= i < |segs| ==> segs[i] != ""
    ensures Join(segs, '/') == "" <==> segs == []
  {
  }

  /** Its second loop: the filled segments, joined. */
  method RewriteFolder(folder: string) returns (out: string)
    ensures out == Join(Segments(folder), '/')
  {
    hide Join;
    hide Split;
    hide Scanning;
    hide Filled;
    var start, i := 0, 0;
    out := "";
    JoinEmpty([]);
    ghost var done: seq<string> := [];
    ScanBegins(folder);
    NoPieces(0);
    while i <= |folder|
      invariant start <= i <= |folder| + 1 && Scanning(folder, done, start, i)
      invariant out == Join(Filled(done), '/')
    {
      if i < |folder| && folder[i] != '/' {
        ScanSkip(folder, done, start, i);
        i := i + 1;
        continue;
      }
      ScanPiece(folder, done, start, i);
      FilledMore(done, folder[start..i]);
      JoinEmpty(Filled(done));
      assert folder[start..i] == "" <==> i == start;
      if i > start {
        JoinMore(Filled(done), folder[start..i]);
        if |out| > 0 {
          out := out + "/";
        }
        out := out + folder[start..i];
      }
      done := done + [folder[start..i]];
      start, i := i + 1, i + 1;
    }
    ScanBounds(folder, done, start, i);
  }

  /** archiveCanonFolder. */
  method CanonFolder(folder: string) returns (r: Result<string>)
    ensures r == Canon(folder)
  {
    var fault, rewrite := ScanFolder(folder);
    if fault.Some? {
      return Refused(fault.value);
    }
    if !rewrite {
      JoinSplit(folder, '/');
      return Ok(folder);
    }
    var out := RewriteFolder(folder);
    return Ok(out);
  }

  lemma {:induction false} FilledTwice(segs: seq<string>)
    requires forall i :: 0 <= i < |segs| ==> segs[i] != ""
    ensures Filled(segs) == segs
  {
    if segs != [] {
      FilledTwice(segs[1..]);
      assert segs == [segs[0]] + segs[1..];
    }
  }

  /** A list of segments as they occur in a canonical path. */
  predicate Plain(segs: seq<string>) { forall i :: 0 <= i < |segs| ==> segs[i] != "" && '/' !in segs[i] }

  lemma SegmentsOfJoin(segs: seq<string>)
    requires Plain(segs)
    ensures Segments(Join(segs, '/')) == segs
  {
    if segs == [] {
      assert Split("", '/') == [""];
    } else {
      SplitJoin(segs, '/');
      FilledTwice(segs);
    }
  }

  /** A folder within the limits keeps exactly its filled segments, within them its canonical form is one
      too and spells itself, and canonical paths are equal only when their segments are. */
  lemma CanonSpells(folder: string)
    ensures Canon(folder).Ok? <==>
      |Segments(folder)| <= MAX_DEPTH && forall i :: 0 <= i < |Split(folder, '/')| ==> |Split(folder, '/')[i]| <= MAX_NAME
    ensures Canon(folder).Ok? ==>
      Segments(Canon(folder).value) == Segments(folder) && Canon(Canon(folder).value) == Canon(folder)
  {
    FaultMeans(Split(folder, '/'), 0);
    var segs := Segments(folder);
    SegmentsOfJoin(segs);
    if Canon(folder).Ok? {
      var canon := Canon(folder).value;
      if segs == [] {
        assert Split("", '/') == [""];
      } else {
        SplitJoin(segs, '/');
      }
      FaultMeans(Split(canon, '/'), 0);
    }
  }
}
