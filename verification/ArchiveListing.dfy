/** The listing of an archive's tree, in tree order, with its counts. */
module ArchiveListing {
  import opened Wrappers
  import opened Text
  import opened Folders
  import opened FolderOrder
  import opened ArchiveTree
  import opened Sorting

  datatype Node = Node(id: string, parent: string, name: string, count: nat, store: bool)

  datatype Tree = Tree(nodes: seq<Node>, byNode: map<string, seq<string>>)

  function KeysOf(byNode: map<string, seq<string>>, id: string): seq<string> {
    if id in byNode then byNode[id] else []
  }

  function ParentOf(p: Place): Place
    requires Segments(p.folder) != []
  {
    Place(p.token, Prefix(p.folder, |Segments(p.folder)| - 1))
  }

  function NodeOf(p: Place, byNode: map<string, seq<string>>): Node {
    var count, segs := |KeysOf(byNode, NodeId(p))|, Segments(p.folder);
    if segs == [] then Node(p.token, "", p.token, count, true)
    else Node(NodeId(p), NodeId(ParentOf(p)), segs[|segs| - 1], count, false)
  }

  function Trails(places: seq<Place>): (r: seq<seq<string>>)
    ensures |r| == |places| && forall i :: 0 <= i < |r| ==> r[i] == Trail(places[i])
  {
    seq(|places|, i requires 0 <= i < |places| => Trail(places[i]))
  }

  ghost predicate Lists(places: seq<Place>, made: set<Place>) {
    StrictlySorted(Trails(places)) && forall p :: p in places <==> p in made
  }

  ghost predicate NodesOf(nodes: seq<Node>, places: seq<Place>, byNode: map<string, seq<string>>) {
    |nodes| == |places| && forall i :: 0 <= i < |nodes| ==> nodes[i] == NodeOf(places[i], byNode)
  }

  // ---- the parts of a path

  /** strings.LastIndexByte of a slash, -1 when there is none. */
  function LastSlash(s: string): (r: int)
    ensures -1 <= r < |s|
  {
    if s == "" then -1 else if s[|s| - 1] == '/' then |s| - 1 else LastSlash(s[..|s| - 1])
  }

  lemma {:induction false} LastSlashPlain(s: string)
    requires '/' !in s
    ensures LastSlash(s) == -1
  {
    if s != "" {
      LastSlashPlain(s[..|s| - 1]);
    }
  }

  lemma {:induction false} LastSlashAt(front: string, last: string)
    requires '/' !in last
    ensures LastSlash(front + "/" + last) == |front|
  {
    var s := front + "/" + last;
    if last == "" {
      assert s[|s| - 1] == '/';
    } else {
      assert s[|s| - 1] == last[|last| - 1];
      assert s[..|s| - 1] == front + "/" + last[..|last| - 1];
      LastSlashAt(front, last[..|last| - 1]);
    }
  }

  lemma PathParts(folder: string)
    requires Join(Segments(folder), '/') == folder && folder != ""
    ensures var segs, i := Segments(folder), LastSlash(folder);
      && segs != []
      && (i < 0 ==> Prefix(folder, |segs| - 1) == "" && segs[|segs| - 1] == folder)
      && (i >= 0 ==> Prefix(folder, |segs| - 1) == folder[..i] && segs[|segs| - 1] == folder[i + 1..] && folder[..i] != "")
  {
    var segs := Segments(folder);
    var front, last := segs[..|segs| - 1], segs[|segs| - 1];
    assert segs == front + [last];
    JoinMore(front, last);
    JoinEmpty(front);
    if front == [] {
      LastSlashPlain(folder);
    } else {
      LastSlashAt(Join(front, '/'), last);
    }
  }

  function ParentId(token: string, folder: string): string {
    var i := LastSlash(folder);
    if i < 0 then token else NodeId(Place(token, folder[..i]))
  }

  function LastName(folder: string): string { folder[LastSlash(folder) + 1..] }

  lemma ParentIs(p: Place)
    requires Proper(p) && p.folder != ""
    ensures Segments(p.folder) != [] && ParentId(p.token, p.folder) == NodeId(ParentOf(p))
    ensures LastName(p.folder) == Segments(p.folder)[|Segments(p.folder)| - 1]
  {
    PathParts(p.folder);
    hide Segments;
    hide Prefix;
    hide LastSlash;
    hide Join;
    assert p.folder[0..] == p.folder;
  }

  lemma FolderNodeIs(p: Place, byNode: map<string, seq<string>>)
    requires Proper(p) && p.folder != ""
    ensures NodeOf(p, byNode)
      == Node(NodeId(p), ParentId(p.token, p.folder), LastName(p.folder), |KeysOf(byNode, NodeId(p))|, false)
  {
    ParentIs(p);
    hide Segments;
    hide ParentOf;
    hide LastName;
    hide ParentId;
    hide NodeId;
  }

  /** One folder's node. */
  method FolderNode(p: Place, byNode: map<string, seq<string>>) returns (node: Node)
    requires Proper(p) && p.folder != ""
    ensures node == NodeOf(p, byNode)
  {
    FolderNodeIs(p, byNode);
    hide NodeOf;
    hide NodeId;
    var parent, name := p.token, p.folder;
    var i := LastSlash(p.folder);
    assert p.folder[0..] == p.folder;
    if i >= 0 {
      parent, name := NodeId(Place(p.token, p.folder[..i])), p.folder[i + 1..];
    }
    var id := NodeId(p);
    return Node(id, parent, name, |KeysOf(byNode, id)|, false);
  }

  // ---- listing

  method Collect<T(==)>(s: set<T>) returns (r: seq<T>)
    ensures forall x :: x in r <==> x in s
    ensures forall i, j :: 0 <= i < j < |r| ==> r[i] != r[j]
  {
    r := [];
    var left := s;
    while left != {}
      invariant left <= s && forall x :: x in r <==> x in s && x !in left
      invariant forall i, j :: 0 <= i < j < |r| ==> r[i] != r[j]
      decreases |left|
    {
      var x :| x in left;
      r, left := r + [x], left - {x};
    }
  }

  ghost predicate Distinct<T>(s: seq<T>) { forall i, j :: 0 <= i < j < |s| ==> s[i] != s[j] }

  lemma SortKeepsDistinct<T(!new)>(s: seq<T>, less: (T, T) -> bool)
    requires Distinct(s)
    ensures Distinct(Sort(s, less))
  {
    var r := Sort(s, less);
    forall i, j | 0 <= i < j < |r| ensures r[i] != r[j] {
      TwiceIn(r, i, j);
      OnceIn(s, r[i]);
    }
  }

  lemma TwiceIn<T>(r: seq<T>, i: nat, j: nat)
    requires i < j < |r|
    ensures r[i] == r[j] ==> multiset(r)[r[i]] >= 2
  {
    assert r == r[..i] + [r[i]] + r[i + 1..j] + [r[j]] + r[j + 1..];
  }

  lemma {:induction false} OnceIn<T>(s: seq<T>, x: T)
    requires Distinct(s)
    ensures multiset(s)[x] <= 1
  {
    if s != [] {
      OnceIn(s[1..], x);
      assert s == [s[0]] + s[1..];
      if s[0] == x {
        forall i | 0 <= i < |s[1..]| ensures s[1..][i] != x {
          assert s[0] != s[i + 1];
        }
        assert x !in s[1..];
        assert x !in multiset(s[1..]);
      }
    }
  }

  /** The folders of one store, in order. */
  method SortedPaths(made: set<Place>, token: string) returns (paths: seq<string>)
    requires forall p :: p in made ==> Proper(p)
    ensures forall f :: f in paths <==> Place(token, f) in made && f != ""
    ensures forall i :: 0 <= i < |paths| ==> Place(token, paths[i]) in made && paths[i] != ""
    ensures forall i, j :: 0 <= i < j < |paths| ==> Before(Segments(paths[i]), Segments(paths[j]))
  {
    var some := set p | p in made && p.token == token && p.folder != "" :: p.folder;
    var all := Collect(some);
    paths := Sort(all, PathBefore);
    SameElements(paths, all);
    forall f ensures f in some <==> Place(token, f) in made && f != "" {
      assert Place(token, f) in made ==> Place(token, f).token == token;
    }
    PathBeforeOrders();
    SortKeepsDistinct(all, PathBefore);
    hide Before;
    hide Segments;
    forall i, j | 0 <= i < j < |paths| ensures Before(Segments(paths[i]), Segments(paths[j])) {
      assert paths[i] in paths && paths[j] in paths;
      assert Proper(Place(token, paths[i])) && Proper(Place(token, paths[j]));
      SplitIsSegments(paths[i]);
      SplitIsSegments(paths[j]);
      assert PathBefore(paths[i], paths[j]);
    }
  }

  lemma SplitIsSegments(folder: string)
    requires Join(Segments(folder), '/') == folder && folder != ""
    ensures Split(folder, '/') == Segments(folder)
  {
    SplitJoin(Segments(folder), '/');
  }

  /** One store and its folders, in tree order. */
  method ListStore(made: set<Place>, byNode: map<string, seq<string>>, token: string)
    returns (nodes: seq<Node>, ghost places: seq<Place>)
    requires (forall p :: p in made ==> Proper(p)) && Place(token, "") in made
    ensures NodesOf(nodes, places, byNode) && StrictlySorted(Trails(places))
    ensures forall p :: p in places <==> p in made && p.token == token
  {
    var paths := SortedPaths(made, token);
    nodes, places := StoreNodes(byNode, token, paths);
    StoreSorted(token, paths, places);
    hide Segments;
    hide NodesOf;
    forall p ensures p in places <==> p in made && p.token == token {
      StoreHolds(token, paths, places, p);
    }
  }

  method StoreNodes(byNode: map<string, seq<string>>, token: string, paths: seq<string>)
    returns (nodes: seq<Node>, ghost places: seq<Place>)
    requires forall i :: 0 <= i < |paths| ==> Proper(Place(token, paths[i])) && paths[i] != ""
    ensures NodesOf(nodes, places, byNode) && StoreThen(token, paths, places)
  {
    hide *;
    nodes := [Node(token, "", token, |KeysOf(byNode, token)|, true)];
    places := [Place(token, "")];
    StoreFirst(byNode, token, nodes[0]);
    assert paths[..0] == [];
    for i := 0 to |paths|
      invariant NodesOf(nodes, places, byNode) && StoreThen(token, paths[..i], places)
    {
      var node := FolderNode(Place(token, paths[i]), byNode);
      NodesMore(nodes, places, byNode, node, Place(token, paths[i]));
      StoreMore(token, paths, i, places);
      nodes, places := nodes + [node], places + [Place(token, paths[i])];
    }
    assert paths[..|paths|] == paths;
  }

  lemma StoreFirst(byNode: map<string, seq<string>>, token: string, node: Node)
    requires node == Node(token, "", token, |KeysOf(byNode, token)|, true)
    ensures NodesOf([node], [Place(token, "")], byNode) && StoreThen(token, [], [Place(token, "")])
  {
    EmptySegments();
    hide Segments;
    hide KeysOf;
  }

  lemma NodesMore(nodes: seq<Node>, places: seq<Place>, byNode: map<string, seq<string>>, node: Node, p: Place)
    requires NodesOf(nodes, places, byNode) && node == NodeOf(p, byNode)
    ensures NodesOf(nodes + [node], places + [p], byNode)
  {
    hide NodeOf;
  }

  lemma StoreMore(token: string, paths: seq<string>, i: nat, places: seq<Place>)
    requires i < |paths| && StoreThen(token, paths[..i], places)
    ensures StoreThen(token, paths[..i + 1], places + [Place(token, paths[i])])
  {
    assert paths[..i + 1] == paths[..i] + [paths[i]];
  }

  ghost predicate StoreThen(token: string, paths: seq<string>, places: seq<Place>) {
    && |places| == |paths| + 1 && places[0] == Place(token, "")
    && forall k :: 0 <= k < |paths| ==> places[k + 1] == Place(token, paths[k])
  }

  lemma EmptySegments()
    ensures Segments("") == []
  {
    assert Split("", '/') == [""];
  }

  lemma StoreSorted(token: string, paths: seq<string>, places: seq<Place>)
    requires StoreThen(token, paths, places)
    requires forall i, j :: 0 <= i < j < |paths| ==> Before(Segments(paths[i]), Segments(paths[j]))
    requires forall k :: 0 <= k < |paths| ==> Join(Segments(paths[k]), '/') == paths[k] != ""
    ensures StrictlySorted(Trails(places))
  {
    EmptySegments();
    forall k | 0 <= k < |paths| ensures Segments(paths[k]) != [] {
    }
    hide Segments;
    forall i, j | 0 <= i < j < |places| ensures Before(Trails(places)[i], Trails(places)[j]) {
      BeforeStep(token, Segments(places[i].folder), token, Segments(places[j].folder));
      assert places[j].folder == paths[j - 1] && (i > 0 ==> places[i].folder == paths[i - 1]);
    }
  }

  lemma StoreHolds(token: string, paths: seq<string>, places: seq<Place>, p: Place)
    requires StoreThen(token, paths, places)
    ensures p in places <==> p == Place(token, "") || (p.token == token && p.folder in paths)
  {
    if p.token == token && p.folder in paths {
      var k :| 0 <= k < |paths| && paths[k] == p.folder;
      assert places[k + 1] == p;
    }
    if p in places {
      var k :| 0 <= k < |places| && places[k] == p;
      assert k > 0 ==> paths[k - 1] in paths;
    }
    assert places[0] in places;
  }

  // ---- the whole tree

  ghost predicate StoresThere(made: set<Place>) { forall p :: p in made ==> Proper(p) && Place(p.token, "") in made }

  lemma LessOrders()
    ensures Orders(Less) && forall a, b :: a == b || Less(a, b) || Less(b, a)
  {
    forall a, b ensures (a == b || Less(a, b) || Less(b, a)) && (Less(a, b) ==> !Less(b, a)) {
      LessTrichotomy(a, b);
    }
    forall a, b, c | !Less(b, a) && !Less(c, b) ensures !Less(c, a) {
      NotLessTransitive(a, b, c);
    }
  }

  method SortedTokens(made: set<Place>) returns (tokens: seq<string>)
    requires StoresThere(made)
    ensures forall t :: t in tokens <==> Place(t, "") in made
    ensures forall i, j :: 0 <= i < j < |tokens| ==> Less(tokens[i], tokens[j])
  {
    hide Proper;
    var some := set p | p in made :: p.token;
    var all := Collect(some);
    tokens := Sort(all, Less);
    SameElements(tokens, all);
    SortKeepsDistinct(all, Less);
    LessOrders();
    hide Less;
    forall t ensures t in some <==> Place(t, "") in made {
      assert Place(t, "") in made ==> Place(t, "").token in some;
    }
  }

  lemma BlocksSorted(a: seq<Place>, b: seq<Place>)
    requires StrictlySorted(Trails(a)) && StrictlySorted(Trails(b))
    requires forall p, q :: p in a && q in b ==> Less(p.token, q.token)
    ensures StrictlySorted(Trails(a + b))
  {
    var c := a + b;
    forall i, j | 0 <= i < j < |c| ensures Before(Trails(c)[i], Trails(c)[j]) {
      if j < |a| {
        assert Before(Trails(a)[i], Trails(a)[j]);
      } else if i >= |a| {
        assert Before(Trails(b)[i - |a|], Trails(b)[j - |a|]);
      } else {
        assert a[i] in a && b[j - |a|] in b;
        LessTrichotomy(c[i].token, c[j].token);
      }
    }
  }

  /** The end of build: each store in token order, then its folders in path order. */
  method ListTree(made: set<Place>, byNode: map<string, seq<string>>) returns (nodes: seq<Node>, ghost places: seq<Place>)
    requires StoresThere(made)
    ensures Lists(places, made) && NodesOf(nodes, places, byNode)
  {
    hide Proper;
    hide Less;
    hide NodeOf;
    hide StrictlySorted;
    hide Trails;
    var tokens := SortedTokens(made);
    nodes, places := [], [];
    NothingSorted();
    for i := 0 to |tokens|
      invariant StrictlySorted(Trails(places)) && NodesOf(nodes, places, byNode)
      invariant forall p :: p in places <==> p in made && p.token in tokens[..i]
    {
      assert tokens[i] in tokens;
      var more, block := ListStore(made, byNode, tokens[i]);
      BlocksSorted(places, block);
      NodesJoin(nodes, places, more, block, byNode);
      nodes, places := nodes + more, places + block;
      assert tokens[..i + 1] == tokens[..i] + [tokens[i]];
    }
    assert tokens[..|tokens|] == tokens;
  }

  lemma NothingSorted()
    ensures StrictlySorted(Trails([]))
  {
  }

  lemma NodesJoin(nodes: seq<Node>, places: seq<Place>, more: seq<Node>, block: seq<Place>, byNode: map<string, seq<string>>)
    requires NodesOf(nodes, places, byNode) && NodesOf(more, block, byNode)
    ensures NodesOf(nodes + more, places + block, byNode)
  {
    hide NodeOf;
  }

  // ---- build

  ghost predicate AllCanon(recs: seq<Rec>, safe: string -> bool) {
    forall i :: 0 <= i < |recs| && safe(recs[i].token) ==> Canon(recs[i].folder).Ok?
  }

  function AllPlaces(recs: seq<Rec>, tokens: seq<string>, safe: string -> bool): set<Place> {
    Made(recs, safe) + Stores(tokens, safe)
  }

  /** What a refusal says: a folder of a safe record has that fault, or the whole tree is over that limit. */
  ghost predicate Blames(shape: Shape, other: bool, recs: seq<Rec>, tokens: seq<string>, safe: string -> bool) {
    var all := AllPlaces(recs, tokens, safe);
    match shape
    case TooDeep | NameTooBig => exists i :: 0 <= i < |recs| && safe(recs[i].token) && Canon(recs[i].folder) == Refused(shape)
    case TooMany => other && |all| > MAX_NODES
    case IdsTooBig => other && IdBytes(all) > MAX_ID_BYTES
  }

  lemma OverflowStays(other: bool, made: set<Place>, all: set<Place>)
    requires made <= all
    ensures Overflow(other, made) == Some(TooMany) ==> other && |all| > MAX_NODES
    ensures Overflow(other, made) == Some(IdsTooBig) ==> other && IdBytes(all) > MAX_ID_BYTES
  {
    MoreIsMore(made, all);
  }

  function Ordered(byNode: map<string, seq<string>>): map<string, seq<string>> {
    map id | id in byNode :: Sort(byNode[id], Less)
  }

  /** The records of build, in whatever order the manifest gives them. */
  method AddRecords(b: Builder, recs: seq<Rec>, safe: string -> bool) returns (fault: Option<Shape>)
    requires b.Counted() && b.made == {} && b.byNode == map[] && SafeTokens(safe)
    modifies b
    ensures b.Counted() && b.made <= Made(recs, safe)
    ensures fault.None? ==> AllCanon(recs, safe) && Overflow(b.other, b.made).None?
    ensures fault.None? ==> b.made == Made(recs, safe) && b.byNode == ByNode(recs, safe)
    ensures fault.Some? ==>
      fault == Overflow(b.other, b.made)
      || exists i :: 0 <= i < |recs| && safe(recs[i].token) && Canon(recs[i].folder) == Refused(fault.value)
  {
    hide *;
    NothingMade(b.other, recs, safe);
    for i := 0 to |recs|
      invariant b.Counted() && Overflow(b.other, b.made).None? && AllCanon(recs[..i], safe)
      invariant b.made == Made(recs[..i], safe) && b.byNode == ByNode(recs[..i], safe)
    {
      RecordMore(recs, i, safe);
      MadeClosed(recs[..i], safe);
      MadeGrows(recs, i + 1, safe);
      fault := b.AddRecord(recs[i], safe);
      if fault.Some? {
        return;
      }
    }
    assert recs[..|recs|] == recs;
    MadeGrows(recs, |recs|, safe);
    return None;
  }

  lemma RecordMore(recs: seq<Rec>, i: nat, safe: string -> bool)
    requires i < |recs|
    ensures Made(recs[..i + 1], safe) == Made(recs[..i], safe) + RecPlaces(recs[i], safe)
    ensures ByNode(recs[..i + 1], safe) == if safe(recs[i].token) then Filed(ByNode(recs[..i], safe), recs[i]) else ByNode(recs[..i], safe)
    ensures AllCanon(recs[..i + 1], safe) <==> AllCanon(recs[..i], safe) && (safe(recs[i].token) ==> Canon(recs[i].folder).Ok?)
  {
    assert recs[..i + 1][..i] == recs[..i];
    hide RecPlaces;
    hide Filed;
    hide Canon;
    assert recs[..i + 1] == recs[..i] + [recs[i]];
  }

  lemma NothingMade(other: bool, recs: seq<Rec>, safe: string -> bool)
    ensures Overflow(other, {}).None? && AllCanon(recs[..0], safe)
    ensures Made(recs[..0], safe) == {} && ByNode(recs[..0], safe) == map[]
  {
    assert recs[..0] == [];
  }

  lemma {:induction false} MadeGrows(recs: seq<Rec>, i: nat, safe: string -> bool)
    requires i <= |recs|
    ensures Made(recs[..i], safe) <= Made(recs, safe)
    decreases |recs|
  {
    if i == |recs| {
      assert recs[..i] == recs;
    } else {
      assert recs[..|recs| - 1][..i] == recs[..i];
      MadeGrows(recs[..|recs| - 1], i, safe);
    }
  }
}
