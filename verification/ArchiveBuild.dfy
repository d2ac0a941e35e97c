/** The tree build makes of an archive's records, what it is whatever order they come in, and the memo of
    a folder's chain. */
module ArchiveBuild {
  import opened Wrappers
  import opened Text
  import opened Folders
  import opened FolderOrder
  import opened ArchiveTree
  import opened ArchiveListing
  import Namer

  lemma AllStores(recs: seq<Rec>, tokens: seq<string>, safe: string -> bool)
    requires SafeTokens(safe)
    ensures StoresThere(AllPlaces(recs, tokens, safe)) && ClosedPlaces(AllPlaces(recs, tokens, safe))
  {
    var all := AllPlaces(recs, tokens, safe);
    MadeClosed(recs, safe);
    EmptySegments();
    hide Segments;
    forall p | p in all ensures Proper(p) && Place(p.token, Prefix(p.folder, 0)) in all {
    }
    forall p ensures Prefix(p, 0) == "" {
      assert Segments(p)[..0] == [];
    }
    hide Proper;
    hide Made;
    forall p | p in all ensures Place(p.token, "") in all {
      assert Prefix(p.folder, 0) == "";
    }
  }

  /** The stores with no record yet. */
  method AddStores(b: Builder, tokens: seq<string>, safe: string -> bool) returns (fault: Option<Shape>)
    requires b.Counted() && ClosedPlaces(b.made) && Overflow(b.other, b.made).None?
    modifies b`made, b`nodes, b`idBytes
    ensures b.made <= old(b.made) + Stores(tokens, safe) && fault == Overflow(b.other, b.made)
    ensures fault.None? ==> b.made == old(b.made) + Stores(tokens, safe)
  {
    hide *;
    StoresMore(tokens, 0, safe);
    for i := 0 to |tokens|
      invariant b.Counted() && ClosedPlaces(b.made) && Overflow(b.other, b.made).None?
      invariant b.made == old(b.made) + Stores(tokens[..i], safe)
    {
      StoresMore(tokens, i, safe);
      if safe(tokens[i]) {
        fault := b.AddStore(tokens[i]);
        if fault.Some? {
          return;
        }
      }
    }
    assert tokens[..|tokens|] == tokens;
    return None;
  }

  lemma StoresMore(tokens: seq<string>, i: nat, safe: string -> bool)
    ensures Stores(tokens[..0], safe) == {}
    ensures i < |tokens| ==>
              Stores(tokens[..i + 1], safe) == Stores(tokens[..i], safe) + (if safe(tokens[i]) then {Place(tokens[i], "")} else {})
    ensures i < |tokens| ==> Stores(tokens[..i + 1], safe) <= Stores(tokens, safe)
  {
    if i < |tokens| {
      assert tokens[..i + 1] == tokens[..i] + [tokens[i]];
    }
  }

  /** build: refused exactly when a safe record's folder is out of shape or, for another archive, the whole
      tree is over a limit, in whatever order the records come; otherwise every place, once, in tree order. */
  method Build(other: bool, recs: seq<Rec>, tokens: seq<string>, safe: string -> bool)
    returns (r: Result<Tree>, ghost places: seq<Place>)
    requires SafeTokens(safe)
    ensures r.Ok? <==> AllCanon(recs, safe) && Overflow(other, AllPlaces(recs, tokens, safe)).None?
    ensures r.Refused? ==> Blames(r.shape, other, recs, tokens, safe)
    ensures r.Ok? ==> Lists(places, AllPlaces(recs, tokens, safe)) && NodesOf(r.value.nodes, places, ByNode(recs, safe))
    ensures r.Ok? ==> r.value.byNode == Ordered(ByNode(recs, safe))
  {
    hide *;
    places := [];
    var b := new Builder(other);
    var fault := AddRecords(b, recs, safe);
    Parts(recs, tokens, safe);
    if fault.Some? {
      Faulted(fault.value, other, b.made, recs, tokens, safe);
      return Refused(fault.value), places;
    }
    MadeClosed(recs, safe);
    fault := AddStores(b, tokens, safe);
    if fault.Some? {
      Faulted(fault.value, other, b.made, recs, tokens, safe);
      return Refused(fault.value), places;
    }
    AllStores(recs, tokens, safe);
    var nodes;
    nodes, places := ListTree(b.made, b.byNode);
    r := Ok(Tree(nodes, Ordered(b.byNode)));
  }

  lemma Parts(recs: seq<Rec>, tokens: seq<string>, safe: string -> bool)
    ensures AllPlaces(recs, tokens, safe) == Made(recs, safe) + Stores(tokens, safe)
  {
  }

  /** A fault met on the way blames the whole tree: what was made so far is part of it. */
  lemma Faulted(shape: Shape, other: bool, made: set<Place>, recs: seq<Rec>, tokens: seq<string>, safe: string -> bool)
    requires made <= AllPlaces(recs, tokens, safe)
    requires Overflow(other, made) == Some(shape)
      || exists i :: 0 <= i < |recs| && safe(recs[i].token) && Canon(recs[i].folder) == Refused(shape)
    ensures Blames(shape, other, recs, tokens, safe)
    ensures !(AllCanon(recs, safe) && Overflow(other, AllPlaces(recs, tokens, safe)).None?)
  {
    OverflowStays(other, made, AllPlaces(recs, tokens, safe));
    hide IdBytes;
    hide AllPlaces;
    if Overflow(other, made) != Some(shape) {
      var i :| 0 <= i < |recs| && safe(recs[i].token) && Canon(recs[i].folder) == Refused(shape);
      CanonFaults(recs[i].folder);
    }
  }

  lemma CanonFaults(folder: string)
    ensures Canon(folder).Refused? ==> Canon(folder).shape == TooDeep || Canon(folder).shape == NameTooBig
  {
    Faults(Split(folder, '/'), 0);
  }

  lemma {:induction false} Faults(segs: seq<string>, depth: nat)
    ensures ShapeFault(segs, depth).Some? ==>
      ShapeFault(segs, depth).value == TooDeep || ShapeFault(segs, depth).value == NameTooBig
  {
    if segs != [] {
      Faults(segs[1..], if segs[0] == "" then depth else depth + 1);
    }
  }

  // ---- what the listing is

  lemma TrailPrefix(p: Place, n: nat)
    requires Proper(p) && 1 <= n <= |Trail(p)|
    ensures n - 1 <= |Segments(p.folder)| && Trail(p)[..n] == Trail(Place(p.token, Prefix(p.folder, n - 1)))
  {
    PrefixSegments(p.folder, n - 1);
    hide Segments;
    hide Prefix;
  }

  /** The tree is listed depth first: each folder right inside its parent's block, after the parent. */
  lemma TreeIsDepthFirst(places: seq<Place>, made: set<Place>)
    requires Lists(places, made) && ClosedPlaces(made) && StoresThere(made)
    ensures SubtreesContiguous(Trails(places))
    ensures forall k :: 0 <= k < |places| && |Trails(places)[k]| > 1 ==> ParentBefore(Trails(places), k)
  {
    var trails := Trails(places);
    forall k, n | 0 <= k < |trails| && 1 <= n < |trails[k]| ensures trails[k][..n] in trails {
      var p := places[k];
      assert p in places;
      TrailPrefix(p, n);
      var q := Place(p.token, Prefix(p.folder, n - 1));
      assert q in places;
      var i :| 0 <= i < |places| && places[i] == q;
      assert trails[i] == trails[k][..n];
    }
    hide Trails;
    SortedIsDepthFirst(trails);
  }

  /** Every place is listed once, no two nodes share an id, and a folder's parent id is a node's. */
  lemma NodesAreExact(nodes: seq<Node>, places: seq<Place>, made: set<Place>, byNode: map<string, seq<string>>)
    requires Lists(places, made) && NodesOf(nodes, places, byNode) && ClosedPlaces(made) && StoresThere(made)
    ensures |nodes| == |made| && Distinct(places)
    ensures forall i, j :: 0 <= i < j < |nodes| ==> nodes[i].id != nodes[j].id
    ensures forall i :: 0 <= i < |nodes| && !nodes[i].store ==> exists j :: 0 <= j < |nodes| && nodes[j].id == nodes[i].parent
  {
    ListedOnce(places, made);
    forall i | 0 <= i < |nodes| ensures nodes[i].id == NodeId(places[i]) && places[i] in places {
      NodeIdOf(places[i], byNode);
    }
    forall i, j | 0 <= i < j < |nodes| ensures nodes[i].id != nodes[j].id {
      if NodeId(places[i]) == NodeId(places[j]) {
        IdsTell(places[i], places[j]);
      }
    }
    forall i | 0 <= i < |nodes| && !nodes[i].store
      ensures exists j :: 0 <= j < |nodes| && nodes[j].id == nodes[i].parent
    {
      var parent := ParentOf(places[i]);
      assert parent in places;
      var j :| 0 <= j < |places| && places[j] == parent;
      assert nodes[j].id == nodes[i].parent;
    }
  }

  lemma NodeIdOf(p: Place, byNode: map<string, seq<string>>)
    requires Proper(p)
    ensures NodeOf(p, byNode).id == NodeId(p)
  {
    assert Segments(p.folder) == [] ==> p.folder == "";
  }

  lemma ListedOnce(places: seq<Place>, made: set<Place>)
    requires Lists(places, made)
    ensures Distinct(places) && |places| == |made|
  {
    forall i, j | 0 <= i < j < |places| ensures places[i] != places[j] {
      assert Before(Trails(places)[i], Trails(places)[j]);
      BeforeTrichotomy(Trails(places)[i], Trails(places)[j]);
    }
    SizeOfDistinct(places, made);
  }

  lemma {:induction false} SizeOfDistinct<T>(s: seq<T>, all: set<T>)
    requires Distinct(s) && forall x :: x in s <==> x in all
    ensures |s| == |all|
  {
    if s == [] {
      assert all == {};
    } else {
      var front, last := s[..|s| - 1], s[|s| - 1];
      assert s == front + [last];
      forall x ensures x in front <==> x in all - {last} {
        if x in front {
          var i :| 0 <= i < |front| && front[i] == x;
          assert s[i] != s[|s| - 1];
        }
      }
      SizeOfDistinct(front, all - {last});
    }
  }

  // ---- the counts add up

  function SafeCount(recs: seq<Rec>, safe: string -> bool): nat {
    if recs == [] then 0 else SafeCount(recs[..|recs| - 1], safe) + (if safe(recs[|recs| - 1].token) then 1 else 0)
  }

  function CountSum(places: seq<Place>, byNode: map<string, seq<string>>): nat {
    if places == [] then 0
    else CountSum(places[..|places| - 1], byNode) + |KeysOf(byNode, NodeId(places[|places| - 1]))|
  }

  ghost predicate AllProper(places: seq<Place>) { forall i :: 0 <= i < |places| ==> Proper(places[i]) }

  lemma KeysFiled(byNode: map<string, seq<string>>, r: Rec, p: Place)
    requires Proper(p) && Proper(PlaceOf(r))
    ensures |KeysOf(Filed(byNode, r), NodeId(p))| == |KeysOf(byNode, NodeId(p))| + (if p == PlaceOf(r) then 1 else 0)
  {
    if NodeId(p) == NodeId(PlaceOf(r)) {
      IdsTell(p, PlaceOf(r));
    }
    hide NodeId;
    hide Proper;
  }

  lemma {:induction false} FiledElsewhere(places: seq<Place>, byNode: map<string, seq<string>>, r: Rec)
    requires AllProper(places) && Proper(PlaceOf(r)) && PlaceOf(r) !in places
    ensures CountSum(places, Filed(byNode, r)) == CountSum(places, byNode)
  {
    if places != [] {
      var last := places[|places| - 1];
      assert last in places;
      KeysFiled(byNode, r, last);
      hide PlaceOf;
      hide Proper;
      hide Filed;
      hide KeysOf;
      FiledElsewhere(places[..|places| - 1], byNode, r);
    }
  }

  /** The last of distinct places, and those before. */
  lemma LastPlace(places: seq<Place>, byNode: map<string, seq<string>>, p: Place)
    requires p in places && AllProper(places) && Distinct(places)
    ensures var front, last := places[..|places| - 1], places[|places| - 1];
      && AllProper(front) && Distinct(front) && Proper(last) && (p in front <==> p != last)
      && CountSum(places, byNode) == CountSum(front, byNode) + |KeysOf(byNode, NodeId(last))|
  {
    hide Proper, KeysOf, NodeId;
    assert places == places[..|places| - 1] + [places[|places| - 1]];
  }

  lemma {:induction false} FiledOnce(places: seq<Place>, byNode: map<string, seq<string>>, r: Rec)
    requires AllProper(places) && Distinct(places) && Proper(PlaceOf(r)) && PlaceOf(r) in places
    ensures CountSum(places, Filed(byNode, r)) == CountSum(places, byNode) + 1
  {
    hide *;
    var front, last := places[..|places| - 1], places[|places| - 1];
    LastPlace(places, byNode, PlaceOf(r));
    LastPlace(places, Filed(byNode, r), PlaceOf(r));
    KeysFiled(byNode, r, last);
    if last == PlaceOf(r) {
      FiledElsewhere(front, byNode, r);
    } else {
      FiledOnce(front, byNode, r);
    }
  }

  lemma RecordIsMade(recs: seq<Rec>, safe: string -> bool, i: nat)
    requires SafeTokens(safe) && i < |recs| && safe(recs[i].token)
    ensures PlaceOf(recs[i]) in Made(recs, safe) && Proper(PlaceOf(recs[i]))
  {
    CanonIsProper(recs[i].folder);
    ChainEnds(recs[i].token, CanonOf(recs[i]));
    hide Chain;
    hide Segments;
    MadeMeans(recs, safe, PlaceOf(recs[i]));
    assert recs[i] in recs && PlaceOf(recs[i]) in RecPlaces(recs[i], safe);
  }

  /** The counts of all nodes add up to the records of safe stores. */
  lemma {:induction false} CountsAddUp(places: seq<Place>, recs: seq<Rec>, safe: string -> bool)
    requires SafeTokens(safe) && AllProper(places) && Distinct(places)
    requires forall p :: p in Made(recs, safe) ==> p in places
    ensures CountSum(places, ByNode(recs, safe)) == SafeCount(recs, safe)
  {
    if recs == [] {
      NoCounts(places);
    } else {
      var front, last := recs[..|recs| - 1], recs[|recs| - 1];
      CountsAddUp(places, front, safe);
      if safe(last.token) {
        RecordIsMade(recs, safe, |recs| - 1);
        hide Made;
        hide PlaceOf;
        hide Proper;
        FiledOnce(places, ByNode(front, safe), last);
      }
    }
  }

  lemma {:induction false} NoCounts(places: seq<Place>)
    ensures CountSum(places, map[]) == 0
  {
    if places != [] {
      NoCounts(places[..|places| - 1]);
    }
  }

  // ---- the chain of a folder

  /** The chain of folders a record is in: the store, then each level. */
  function RefsOf(p: Place): seq<Namer.Ref>
    decreases |Segments(p.folder)|
  {
    var segs := Segments(p.folder);
    if segs == [] then [Namer.Ref(p.token, p.token)]
    else
      PrefixSegments(p.folder, |segs| - 1);
      RefsOf(ParentOf(p)) + [Namer.Ref(NodeId(p), segs[|segs| - 1])]
  }

  /** Whatever is remembered under a place's id is its chain. */
  ghost predicate Remembers(refs: map<string, seq<Namer.Ref>>) {
    forall p :: Proper(p) && NodeId(p) in refs ==> refs[NodeId(p)] == RefsOf(p)
  }

  lemma Recall(refs: map<string, seq<Namer.Ref>>, p: Place)
    requires Remembers(refs) && Proper(p)
    ensures NodeId(p) in refs ==> refs[NodeId(p)] == RefsOf(p)
  {
  }

  lemma RememberMore(refs: map<string, seq<Namer.Ref>>, p: Place, r: seq<Namer.Ref>)
    requires Remembers(refs) && Proper(p) && r == RefsOf(p)
    ensures Remembers(refs[NodeId(p) := r])
  {
    forall q | Proper(q) && NodeId(q) == NodeId(p) ensures q == p {
      IdsTell(p, q);
    }
    hide Proper;
    hide NodeId;
    hide RefsOf;
  }

  /** The chain of a place from its parent's. */
  lemma RefsStep(p: Place, parent: string, name: string)
    requires Proper(p)
    requires p.folder != "" ==> (var i := LastSlash(p.folder);
      if i < 0 then parent == "" && name == p.folder else parent == p.folder[..i] && name == p.folder[i + 1..])
    ensures p.folder == "" ==> RefsOf(p) == [Namer.Ref(p.token, p.token)]
    ensures p.folder != "" ==>
              Proper(Place(p.token, parent)) && |Segments(parent)| < |Segments(p.folder)|
              && RefsOf(p) == RefsOf(Place(p.token, parent)) + [Namer.Ref(NodeId(p), name)]
  {
    if p.folder == "" {
      EmptySegments();
    } else {
      ParentFolder(p, parent, name);
      ParentProper(p);
      hide Segments;
      hide NodeId;
      hide LastSlash;
      hide Proper;
    }
  }

  class RefMemo {
    var refs: map<string, seq<Namer.Ref>>

    /** refsLocked: the memo makes no difference to the chain. */
    method Refs(p: Place) returns (r: seq<Namer.Ref>)
      requires Remembers(refs) && Proper(p)
      modifies this
      ensures Remembers(refs) && r == RefsOf(p)
      ensures old(refs).Keys <= refs.Keys && NodeId(p) in refs
      decreases |Segments(p.folder)|
    {
      hide *;
      var id := NodeId(p);
      Recall(refs, p);
      if id in refs {
        return refs[id];
      }
      var i := LastSlash(p.folder);
      var parent, name := "", p.folder;
      if i >= 0 {
        parent, name := p.folder[..i], p.folder[i + 1..];
      }
      RefsStep(p, parent, name);
      if p.folder == "" {
        r := [Namer.Ref(p.token, p.token)];
      } else {
        var up := Refs(Place(p.token, parent));
        r := up + [Namer.Ref(id, name)];
      }
      RememberMore(refs, p, r);
      refs := refs[id := r];
    }
  }

  lemma ParentProper(p: Place)
    requires Proper(p) && Segments(p.folder) != []
    ensures Proper(ParentOf(p)) && |Segments(ParentOf(p).folder)| < |Segments(p.folder)|
  {
    PrefixSegments(p.folder, |Segments(p.folder)| - 1);
  }

  lemma ParentFolder(p: Place, parent: string, name: string)
    requires Proper(p) && p.folder != ""
    requires var i := LastSlash(p.folder);
      if i < 0 then parent == "" && name == p.folder else parent == p.folder[..i] && name == p.folder[i + 1..]
    ensures Segments(p.folder) != [] && Place(p.token, parent) == ParentOf(p)
    ensures name == Segments(p.folder)[|Segments(p.folder)| - 1]
  {
    PathParts(p.folder);
  }
}
