/** The folder tree of an archive: built from its records in any order, each path's prefixes added
    longest first, and listed depth first. */
module ArchiveTree {
  import opened Wrappers
  import opened Text
  import opened Folders

  const MAX_NODES := 10000
  const MAX_ID_BYTES := 8 * 1024 * 1024

  /** A record's key, the store its key names, and the folder it is filed in. */
  datatype Rec = Rec(key: string, token: string, folder: string)

  /** A store, when the folder is empty, or a folder of it. */
  datatype Place = Place(token: string, folder: string)

  function NodeId(p: Place): string { if p.folder == "" then p.token else p.token + "/" + p.folder }

  function Trail(p: Place): seq<string> { [p.token] + Segments(p.folder) }

  /** A token without slashes and a canonical folder. */
  predicate Proper(p: Place) { '/' !in p.token && Join(Segments(p.folder), '/') == p.folder }

  lemma IdIsTrail(p: Place)
    requires Proper(p)
    ensures NodeId(p) == Join(Trail(p), '/') && Split(NodeId(p), '/') == Trail(p)
  {
    hide Segments;
    var segs := Segments(p.folder);
    if segs != [] {
      JoinEmpty(segs);
      assert Trail(p)[1..] == segs;
    }
    SplitJoin(Trail(p), '/');
  }

  /** Node ids tell stores and folders apart. */
  lemma IdsTell(p: Place, q: Place)
    requires Proper(p) && Proper(q) && (NodeId(p) == NodeId(q) || Trail(p) == Trail(q))
    ensures p == q
  {
    IdIsTrail(p);
    IdIsTrail(q);
    assert Trail(p)[1..] == Segments(p.folder) && Trail(q)[1..] == Segments(q.folder);
  }

  // ---- the places a record makes

  function Prefix(folder: string, n: nat): string
    requires n <= |Segments(folder)|
  {
    Join(Segments(folder)[..n], '/')
  }

  lemma PrefixSegments(folder: string, n: nat)
    requires n <= |Segments(folder)|
    ensures Segments(Prefix(folder, n)) == Segments(folder)[..n]
    ensures forall k :: 0 <= k <= n ==> Prefix(Prefix(folder, n), k) == Prefix(folder, k)
  {
    SegmentsOfJoin(Segments(folder)[..n]);
    hide Segments;
    forall k | 0 <= k <= n ensures Prefix(Prefix(folder, n), k) == Prefix(folder, k) {
      assert Segments(folder)[..n][..k] == Segments(folder)[..k];
    }
  }

  /** The store and every prefix of a folder, the folder itself included. */
  function Chain(token: string, folder: string): set<Place> {
    set n | 0 <= n <= |Segments(folder)| :: Place(token, Prefix(folder, n))
  }

  function CanonOf(r: Rec): string { if Canon(r.folder).Ok? then Canon(r.folder).value else "" }

  function PlaceOf(r: Rec): Place { Place(r.token, CanonOf(r)) }

  function Stores(tokens: seq<string>, safe: string -> bool): set<Place> {
    set t | t in tokens && safe(t) :: Place(t, "")
  }

  /** The places of the records: every safe record's store, and each prefix of its canonical folder. */
  function Made(recs: seq<Rec>, safe: string -> bool): set<Place> {
    if recs == [] then {}
    else
      var last := recs[|recs| - 1];
      Made(recs[..|recs| - 1], safe) + RecPlaces(last, safe)
  }

  /** Order does not matter: a place is made exactly when a safe record is filed at it or below it. */
  lemma {:induction false} MadeMeans(recs: seq<Rec>, safe: string -> bool, p: Place)
    ensures p in Made(recs, safe) <==>
      exists r :: r in recs && p in RecPlaces(r, safe)
  {
    hide RecPlaces;
    if recs != [] {
      var front, last := recs[..|recs| - 1], recs[|recs| - 1];
      MadeMeans(front, safe, p);
      assert recs == front + [last];
    }
  }

  ghost predicate ClosedPlaces(made: set<Place>) {
    forall p, n :: p in made && 0 <= n <= |Segments(p.folder)| ==> Place(p.token, Prefix(p.folder, n)) in made
  }

  lemma CanonIsProper(folder: string)
    ensures Canon(folder).Ok? ==> Join(Segments(Canon(folder).value), '/') == Canon(folder).value
    ensures Join(Segments(""), '/') == ""
  {
    CanonSpells(folder);
    assert Split("", '/') == [""];
  }

  lemma ChainClosed(token: string, folder: string)
    requires '/' !in token
    ensures ClosedPlaces(Chain(token, folder)) && forall p :: p in Chain(token, folder) ==> Proper(p)
  {
    forall p | p in Chain(token, folder)
      ensures Proper(p)
      ensures forall n :: 0 <= n <= |Segments(p.folder)| ==> Place(p.token, Prefix(p.folder, n)) in Chain(token, folder)
    {
      var m :| 0 <= m <= |Segments(folder)| && p == Place(token, Prefix(folder, m));
      PrefixSegments(folder, m);
      forall n | 0 <= n <= |Segments(p.folder)| ensures Place(p.token, Prefix(p.folder, n)) in Chain(token, folder) {
        assert Prefix(p.folder, n) == Prefix(folder, n);
      }
    }
  }

  ghost predicate SafeTokens(safe: string -> bool) { forall t :: safe(t) ==> '/' !in t }

  lemma {:induction false} MadeClosed(recs: seq<Rec>, safe: string -> bool)
    requires SafeTokens(safe)
    ensures ClosedPlaces(Made(recs, safe)) && forall p :: p in Made(recs, safe) ==> Proper(p)
  {
    if recs != [] {
      MadeClosed(recs[..|recs| - 1], safe);
      var last := recs[|recs| - 1];
      if safe(last.token) {
        ChainClosed(last.token, CanonOf(last));
      }
    }
  }

  // ---- the bytes of the ids

  ghost function IdBytes(places: set<Place>): nat {
    if places == {} then 0
    else
      var p :| p in places;
      |NodeId(p)| + IdBytes(places - {p})
  }

  lemma {:induction false} IdBytesWithout(places: set<Place>, q: Place)
    requires q in places
    ensures IdBytes(places) == |NodeId(q)| + IdBytes(places - {q})
    decreases |places|
  {
    hide NodeId;
    var p :| p in places && IdBytes(places) == |NodeId(p)| + IdBytes(places - {p});
    if p != q {
      IdBytesWithout(places - {p}, q);
      IdBytesWithout(places - {q}, p);
      assert places - {p} - {q} == places - {q} - {p};
    }
  }

  lemma IdBytesMore(places: set<Place>, q: Place)
    requires q !in places
    ensures IdBytes(places + {q}) == IdBytes(places) + |NodeId(q)| && |places + {q}| == |places| + 1
  {
    IdBytesWithout(places + {q}, q);
    assert places + {q} - {q} == places;
  }

  lemma {:induction false} MoreIsMore(a: set<Place>, b: set<Place>)
    requires a <= b
    ensures |a| <= |b| && IdBytes(a) <= IdBytes(b)
    decreases |a|
  {
    if a != {} {
      var p :| p in a;
      MoreIsMore(a - {p}, b - {p});
      IdBytesWithout(a, p);
      IdBytesWithout(b, p);
    }
  }

  // ---- building

  /** What a set of places breaks of the limits on another archive's tree. */
  ghost function Overflow(other: bool, made: set<Place>): Option<Shape> {
    if !other then None
    else if |made| > MAX_NODES then Some(TooMany)
    else if IdBytes(made) > MAX_ID_BYTES then Some(IdsTooBig)
    else None
  }

  function ByNode(recs: seq<Rec>, safe: string -> bool): map<string, seq<string>> {
    if recs == [] then map[]
    else
      var front, last := ByNode(recs[..|recs| - 1], safe), recs[|recs| - 1];
      if safe(last.token) then Filed(front, last) else front
  }

  function Filed(byNode: map<string, seq<string>>, r: Rec): map<string, seq<string>> {
    var id := NodeId(PlaceOf(r));
    byNode[id := (if id in byNode then byNode[id] else []) + [r.key]]
  }

  class Builder {
    const other: bool
    var made: set<Place>
    var nodes: nat
    var idBytes: nat
    var byNode: map<string, seq<string>>

    constructor (other: bool)
      ensures this.other == other && Counted() && made == {} && byNode == map[]
    {
      this.other := other;
      made, nodes, idBytes, byNode := {}, 0, 0, map[];
    }

    /** The running totals are those of the places made so far. */
    ghost predicate Counted()
      reads this
    {
      other ==> nodes == |made| && idBytes == IdBytes(made)
    }

    /** A place not made yet, within the limits. */
    method Add(p: Place) returns (fault: Option<Shape>)
      requires Counted() && p !in made
      modifies this`made, this`nodes, this`idBytes
      ensures Counted() && made == old(made) + {p} && fault == Overflow(other, made)
    {
      IdBytesMore(made, p);
      made := made + {p};
      if !other {
        return None;
      }
      nodes, idBytes := nodes + 1, idBytes + |NodeId(p)|;
      if nodes > MAX_NODES {
        return Some(TooMany);
      }
      if idBytes > MAX_ID_BYTES {
        return Some(IdsTooBig);
      }
      return None;
    }

    /** Every prefix of a path, the longest first, up to one that is there already. */
    method AddChain(token: string, folder: string) returns (fault: Option<Shape>)
      requires Counted() && ClosedPlaces(made) && Proper(Place(token, folder)) && Place(token, "") in made
      requires Overflow(other, made).None?
      modifies this`made, this`nodes, this`idBytes
      ensures Counted() && made <= old(made) + Chain(token, folder) && fault == Overflow(other, made)
      ensures fault.None? ==> made == old(made) + Chain(token, folder)
    {
      hide *;
      var segs := Segments(folder);
      WholePrefix(token, folder);
      assert made + {} == made;
      var i := |segs|;
      while i >= 1
        invariant 0 <= i <= |segs| && Counted() && Overflow(other, made).None?
        invariant made == old(made) + ChainFrom(token, folder, i)
      {
        ChainStep(token, folder, i);
        var p := Place(token, if i < |segs| then Join(segs[..i], '/') else folder);
        PrefixIs(folder, i);
        assert p == Place(token, Prefix(folder, i));
        if p in made {
          ChainMeets(old(made), token, folder, i);
          return None;
        }
        fault := Add(p);
        if fault.Some? {
          return;
        }
        i := i - 1;
      }
      ChainMeets(old(made), token, folder, 0);
      return None;
    }

    /** A store, if it is not there. */
    method AddStore(token: string) returns (fault: Option<Shape>)
      requires Counted() && ClosedPlaces(made) && Overflow(other, made).None?
      modifies this`made, this`nodes, this`idBytes
      ensures Counted() && ClosedPlaces(made) && made == old(made) + {Place(token, "")} && fault == Overflow(other, made)
    {
      StoreClosed(made, token);
      hide IdBytes;
      hide ClosedPlaces;
      if Place(token, "") !in made {
        fault := Add(Place(token, ""));
        return;
      }
      assert made + {Place(token, "")} == made;
      return None;
    }

    /** One record: its store, its key under its folder's id, and the folder's prefixes. */
    method AddRecord(r: Rec, safe: string -> bool) returns (fault: Option<Shape>)
      requires Counted() && ClosedPlaces(made) && SafeTokens(safe) && Overflow(other, made).None?
      modifies this
      ensures Counted() && made <= old(made) + RecPlaces(r, safe)
      ensures fault == if safe(r.token) && Canon(r.folder).Refused? then Some(Canon(r.folder).shape) else Overflow(other, made)
      ensures fault.None? ==> made == old(made) + RecPlaces(r, safe)
      ensures fault.None? ==> byNode == if safe(r.token) then Filed(old(byNode), r) else old(byNode)
    {
      hide Chain;
      hide IdBytes;
      hide Canon;
      hide ClosedPlaces;
      if !safe(r.token) {
        return None;
      }
      var canon := CanonFolder(r.folder);
      if canon.Refused? {
        return Some(canon.shape);
      }
      var folder := canon.value;
      CanonIsProper(r.folder);
      ChainEnds(r.token, folder);
      hide Segments;
      fault := AddStore(r.token);
      if fault.Some? {
        return;
      }
      var id := NodeId(Place(r.token, folder));
      byNode := byNode[id := (if id in byNode then byNode[id] else []) + [r.key]];
      if folder == "" || Place(r.token, folder) in made {
        ChainThere(made, r.token, folder);
        return None;
      }
      fault := AddChain(r.token, folder);
    }
  }

  lemma PrefixIs(folder: string, n: nat)
    requires n <= |Segments(folder)|
    ensures Prefix(folder, n) == Join(Segments(folder)[..n], '/')
  {
  }

  lemma WholePrefix(token: string, folder: string)
    requires Proper(Place(token, folder))
    ensures Prefix(folder, |Segments(folder)|) == folder
    ensures ChainFrom(token, folder, |Segments(folder)|) == {}
  {
    assert Segments(folder)[..|Segments(folder)|] == Segments(folder);
  }

  /** The prefixes longer than i. */
  function ChainFrom(token: string, folder: string, i: nat): set<Place> {
    set n | i < n <= |Segments(folder)| :: Place(token, Prefix(folder, n))
  }

  lemma PrefixesDiffer(folder: string, m: nat, n: nat)
    requires m <= |Segments(folder)| && n <= |Segments(folder)| && Prefix(folder, m) == Prefix(folder, n)
    ensures m == n
  {
    PrefixSegments(folder, m);
    PrefixSegments(folder, n);
    hide Prefix;
    hide Segments;
  }

  lemma ChainStep(token: string, folder: string, i: nat)
    requires 1 <= i <= |Segments(folder)|
    ensures ChainFrom(token, folder, i - 1) == ChainFrom(token, folder, i) + {Place(token, Prefix(folder, i))}
    ensures Place(token, Prefix(folder, i)) !in ChainFrom(token, folder, i)
    ensures ChainFrom(token, folder, i) <= Chain(token, folder) && Place(token, Prefix(folder, i)) in Chain(token, folder)
  {
    forall n | i < n <= |Segments(folder)| ensures Prefix(folder, n) != Prefix(folder, i) {
      if Prefix(folder, n) == Prefix(folder, i) {
        PrefixesDiffer(folder, n, i);
      }
    }
    hide Prefix;
    hide Segments;
  }

  /** Where a prefix is there already, so are all shorter ones: nothing is missed by stopping. */
  lemma ChainMeets(made: set<Place>, token: string, folder: string, i: nat)
    requires ClosedPlaces(made) && Place(token, "") in made && i <= |Segments(folder)|
    requires i == 0 || Place(token, Prefix(folder, i)) in made
    ensures made + ChainFrom(token, folder, i) == made + Chain(token, folder)
  {
    forall n | 0 <= n <= i ensures Place(token, Prefix(folder, n)) in made {
      if i > 0 {
        PrefixSegments(folder, i);
        assert Prefix(Prefix(folder, i), n) == Prefix(folder, n);
        assert Place(token, Prefix(Prefix(folder, i), n)) in made;
      } else {
        assert Segments(folder)[..0] == [];
      }
    }
    hide Prefix;
    hide Segments;
  }

  function RecPlaces(r: Rec, safe: string -> bool): set<Place> {
    if safe(r.token) then Chain(r.token, CanonOf(r)) else {}
  }

  lemma ChainEnds(token: string, folder: string)
    requires Join(Segments(folder), '/') == folder
    ensures Place(token, "") in Chain(token, folder) && Place(token, folder) in Chain(token, folder)
  {
    assert Segments(folder)[..0] == [] && Segments(folder)[..|Segments(folder)|] == Segments(folder);
    assert Prefix(folder, 0) == "" && Prefix(folder, |Segments(folder)|) == folder;
    hide Segments;
    hide Prefix;
    assert 0 <= |Segments(folder)| <= |Segments(folder)|;
  }

  lemma StoreClosed(made: set<Place>, token: string)
    requires ClosedPlaces(made)
    ensures ClosedPlaces(made + {Place(token, "")})
  {
    assert Split("", '/') == [""];
    assert Segments("") == [] && Prefix("", 0) == "";
    hide Segments;
    hide Prefix;
  }

  /** A folder that is there has its whole chain there. */
  lemma ChainThere(made: set<Place>, token: string, folder: string)
    requires ClosedPlaces(made) && Place(token, folder) in made
    ensures Chain(token, folder) <= made
  {
    hide Segments;
    hide Prefix;
    forall p | p in Chain(token, folder) ensures p in made {
      var n :| 0 <= n <= |Segments(folder)| && p == Place(token, Prefix(folder, n));
      assert Place(Place(token, folder).token, Prefix(Place(token, folder).folder, n)) in made;
    }
  }
}
