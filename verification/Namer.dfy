/** Where an export puts its messages: folders told apart by fold key, month directories of at most
    1,000 files. A path is the list of its segments; a directory is known by the ids of its folders. */
module Namer {
  import opened FreeNumber
  import opened Text
  import opened Wrappers

  const FILES_PER_DIR := 1000
  const RUNGS: seq<nat> := [8, 12, 16, 24, 40]

  datatype Ref = Ref(id: string, name: string)

  datatype Message = Message(folder: seq<Ref>, month: string, files: nat, subject: string, source: string)

  /** `first` is a folder's own segment (or its hashed form, for a short-name alias), `rung` the segment
      with that many digits of its id's hash, `part` a month's directory name. */
  datatype Naming = Naming(first: Ref -> string, rung: (Ref, nat) -> string, part: (string, nat) -> string, fold: string -> string)

  datatype Owner = OfFolder(id: string) | OfMonth(name: string)

  datatype Part = Part(idx: nat, name: string)

  datatype Dir = Dir(rel: seq<string>, used: map<string, Owner>, months: map<string, Part>)

  datatype Tree = Tree(dirs: map<seq<string>, Dir>, counts: map<seq<string>, nat>)

  function Empty(): Tree { Tree(map[[] := Dir(["messages"], map[], map[])], map[]) }

  function Ids(refs: seq<Ref>): (r: seq<string>)
    ensures |r| == |refs|
    ensures forall i :: 0 <= i < |r| ==> r[i] == refs[i].id
  {
    if refs == [] then [] else Ids(refs[..|refs| - 1]) + [refs[|refs| - 1].id]
  }

  // ---- folders

  /** The first free of a name and the rungs; the last rung is taken unseen. */
  function Ladder(nm: Naming, used: map<string, Owner>, ref: Ref, name: string, rungs: seq<nat>): string
    decreases |rungs|
  {
    if rungs == [] || nm.fold(name) !in used then name
    else Ladder(nm, used, ref, nm.rung(ref, rungs[0]), rungs[1..])
  }

  function FolderName(nm: Naming, used: map<string, Owner>, ref: Ref): string {
    Ladder(nm, used, ref, nm.first(ref), RUNGS)
  }

  function Enter(nm: Naming, t: Tree, at: seq<string>, ref: Ref): (r: Tree)
    requires at in t.dirs
    ensures at + [ref.id] in r.dirs && [] in t.dirs ==> [] in r.dirs
  {
    if at + [ref.id] in t.dirs then t
    else
      var d := t.dirs[at];
      var name := FolderName(nm, d.used, ref);
      var d' := d.(used := d.used[nm.fold(name) := OfFolder(ref.id)]);
      t.(dirs := t.dirs[at := d'][at + [ref.id] := Dir(d.rel + [name], map[], map[])])
  }

  function Descend(nm: Naming, t: Tree, refs: seq<Ref>): (r: Tree)
    requires [] in t.dirs
    ensures [] in r.dirs && Ids(refs) in r.dirs
  {
    if refs == [] then t
    else
      var front := refs[..|refs| - 1];
      Enter(nm, Descend(nm, t, front), Ids(front), refs[|refs| - 1])
  }

  // ---- months

  /** The name of a month's part: the month, and from the second on the part's number. */
  function PartName(month: string, i: nat): string { if i <= 1 then month else month + "~" + Decimal(i) }

  /** The fold keys of a month's parts, by number from 1. */
  function PartKeys(nm: Naming, month: string): nat -> string {
    (i: nat) => nm.fold(nm.part(month, i))
  }

  function CountOf(t: Tree, path: seq<string>): nat { if path in t.counts then t.counts[path] else 0 }

  function LastPart(d: Dir, month: string): nat { if month in d.months then d.months[month].idx else 0 }

  predicate HasRoom(t: Tree, at: seq<string>, month: string, files: nat)
    requires at in t.dirs
  {
    var d := t.dirs[at];
    month in d.months && CountOf(t, d.rel + [d.months[month].name]) + files <= FILES_PER_DIR
  }

  function NextPart(nm: Naming, t: Tree, at: seq<string>, month: string): Part
    requires at in t.dirs
  {
    var d := t.dirs[at];
    var idx := FirstFree(PartKeys(nm, month), d.used.Keys, LastPart(d, month) + 1);
    Part(idx, nm.part(month, idx))
  }

  function StartPart(nm: Naming, t: Tree, at: seq<string>, month: string): Tree
    requires at in t.dirs
  {
    var d, p := t.dirs[at], NextPart(nm, t, at, month);
    var d' := d.(used := d.used[nm.fold(p.name) := OfMonth(p.name)], months := d.months[month := p]);
    t.(dirs := t.dirs[at := d'])
  }

  function MonthTree(nm: Naming, t: Tree, at: seq<string>, month: string, files: nat): Tree
    requires at in t.dirs
  {
    if HasRoom(t, at, month, files) then t else StartPart(nm, t, at, month)
  }

  function MonthName(nm: Naming, t: Tree, at: seq<string>, month: string, files: nat): string
    requires at in t.dirs
  {
    if HasRoom(t, at, month, files) then t.dirs[at].months[month].name else NextPart(nm, t, at, month).name
  }

  // ---- placing

  datatype Placed = Placed(at: seq<string>, dir: seq<string>, files: nat)

  function Home(preserve: bool, m: Message): seq<Ref> { if preserve then m.folder else [] }

  function PlaceDir(nm: Naming, preserve: bool, t: Tree, m: Message): Placed
    requires [] in t.dirs
  {
    var refs := Home(preserve, m);
    var t1 := Descend(nm, t, refs);
    Placed(Ids(refs), t1.dirs[Ids(refs)].rel + [MonthName(nm, t1, Ids(refs), m.month, m.files)], m.files)
  }

  function AddFiles(t: Tree, dir: seq<string>, files: nat): Tree {
    t.(counts := t.counts[dir := CountOf(t, dir) + files])
  }

  function PlaceTree(nm: Naming, preserve: bool, t: Tree, m: Message): (r: Tree)
    requires [] in t.dirs
    ensures [] in r.dirs
  {
    var refs := Home(preserve, m);
    AddFiles(MonthTree(nm, Descend(nm, t, refs), Ids(refs), m.month, m.files), PlaceDir(nm, preserve, t, m).dir, m.files)
  }

  function Run(nm: Naming, preserve: bool, ms: seq<Message>): (r: Tree)
    ensures [] in r.dirs
  {
    if ms == [] then Empty() else PlaceTree(nm, preserve, Run(nm, preserve, ms[..|ms| - 1]), ms[|ms| - 1])
  }

  function Places(nm: Naming, preserve: bool, ms: seq<Message>): (r: seq<Placed>)
    ensures |r| == |ms|
  {
    if ms == [] then []
    else
      Places(nm, preserve, ms[..|ms| - 1])
      + [PlaceDir(nm, preserve, Run(nm, preserve, ms[..|ms| - 1]), ms[|ms| - 1])]
  }

  // ---- what is assumed of names

  /** A folder's name under each rung is one segment. */
  predicate RefPlain(nm: Naming, ref: Ref) {
    '/' !in nm.first(ref) && forall h :: h in RUNGS ==> '/' !in nm.rung(ref, h)
  }

  /** A month's parts are segments that fold differently. */
  ghost predicate MonthTold(nm: Naming, month: string) {
    Tells(PartKeys(nm, month), 1) && forall i: nat :: i >= 1 ==> '/' !in nm.part(month, i)
  }

  ghost predicate Told(nm: Naming, ms: seq<Message>) {
    forall i :: 0 <= i < |ms| ==>
      MonthTold(nm, ms[i].month) && forall k :: 0 <= k < |ms[i].folder| ==> RefPlain(nm, ms[i].folder[k])
  }

  // ---- when the names suffice

  /** A folder's own segment or one of its five rungs is free. */
  predicate AnyFree(nm: Naming, used: map<string, Owner>, ref: Ref) {
    nm.fold(nm.first(ref)) !in used || exists h :: h in RUNGS && nm.fold(nm.rung(ref, h)) !in used
  }

  predicate FreeAt(nm: Naming, t: Tree, at: seq<string>, ref: Ref) {
    at in t.dirs && at + [ref.id] !in t.dirs ==> AnyFree(nm, t.dirs[at].used, ref)
  }

  predicate FreeDown(nm: Naming, t: Tree, refs: seq<Ref>)
    requires [] in t.dirs
  {
    refs != [] ==>
      var front := refs[..|refs| - 1];
      FreeDown(nm, t, front) && FreeAt(nm, Descend(nm, t, front), Ids(front), refs[|refs| - 1])
  }

  /** Whenever the run makes a folder, a name for it is free. */
  predicate FoldersFree(nm: Naming, preserve: bool, ms: seq<Message>) {
    ms != [] ==>
      var front := ms[..|ms| - 1];
      FoldersFree(nm, preserve, front) && FreeDown(nm, Run(nm, preserve, front), Home(preserve, ms[|ms| - 1]))
  }

  lemma {:induction false} LadderIs(nm: Naming, used: map<string, Owner>, ref: Ref, name: string, rungs: seq<nat>)
    ensures var r := Ladder(nm, used, ref, name, rungs);
      && (r == name || exists h :: h in rungs && r == nm.rung(ref, h))
      && (nm.fold(r) !in used <==> nm.fold(name) !in used || exists h :: h in rungs && nm.fold(nm.rung(ref, h)) !in used)
    decreases |rungs|
  {
    if rungs != [] && nm.fold(name) in used {
      LadderIs(nm, used, ref, nm.rung(ref, rungs[0]), rungs[1..]);
      assert rungs == [rungs[0]] + rungs[1..];
    }
  }

  /** A new folder's name is free exactly when its own segment or one of the five rungs is. */
  lemma FolderNameFree(nm: Naming, used: map<string, Owner>, ref: Ref)
    ensures var name := FolderName(nm, used, ref);
      && (nm.fold(name) !in used <==> AnyFree(nm, used, ref))
      && (name == nm.first(ref) || exists h :: h in RUNGS && name == nm.rung(ref, h))
  {
    LadderIs(nm, used, ref, nm.first(ref), RUNGS);
  }

  // ---- the invariant

  /** One directory where names that fold alike are one name. */
  predicate Alike(nm: Naming, p: seq<string>, q: seq<string>) {
    |p| == |q| && forall i :: 0 <= i < |p| ==> nm.fold(p[i]) == nm.fold(q[i])
  }

  predicate Under(d: Dir, path: seq<string>) { |path| == |d.rel| + 1 && path[..|d.rel|] == d.rel }

  predicate Owns(nm: Naming, d: Dir, name: string, owner: Owner) {
    nm.fold(name) in d.used && d.used[nm.fold(name)] == owner
  }

  ghost predicate DirOk(nm: Naming, t: Tree, at: seq<string>)
    requires at in t.dirs
  {
    var d := t.dirs[at];
    && |d.rel| == |at| + 1
    && (forall i :: 0 <= i < |d.rel| ==> '/' !in d.rel[i])
    && (at == [] ==> d.rel == ["messages"])
    && (at != [] ==>
          at[..|at| - 1] in t.dirs
          && Under(t.dirs[at[..|at| - 1]], d.rel)
          && Owns(nm, t.dirs[at[..|at| - 1]], d.rel[|at|], OfFolder(at[|at| - 1])))
  }

  ghost predicate KeyOk(nm: Naming, t: Tree, at: seq<string>, key: string)
    requires at in t.dirs && key in t.dirs[at].used
  {
    match t.dirs[at].used[key]
    case OfFolder(id) =>
      at + [id] in t.dirs
      && var rel := t.dirs[at + [id]].rel;
      rel != [] && nm.fold(rel[|rel| - 1]) == key
    case OfMonth(name) => '/' !in name && nm.fold(name) == key
  }

  /** The path is a month directory of the folder. */
  predicate MonthDirOf(nm: Naming, t: Tree, at: seq<string>, path: seq<string>) {
    && at in t.dirs && Under(t.dirs[at], path)
    && Owns(nm, t.dirs[at], path[|path| - 1], OfMonth(path[|path| - 1]))
  }

  ghost predicate DirsOk(nm: Naming, t: Tree) {
    && (forall at {:trigger DirOk(nm, t, at)} :: at in t.dirs ==> DirOk(nm, t, at))
    && (forall at, key {:trigger KeyOk(nm, t, at, key)} :: at in t.dirs && key in t.dirs[at].used ==> KeyOk(nm, t, at, key))
  }

  ghost predicate MonthsOk(nm: Naming, t: Tree) {
    forall at, month :: at in t.dirs && month in t.dirs[at].months ==>
      Owns(nm, t.dirs[at], t.dirs[at].months[month].name, OfMonth(t.dirs[at].months[month].name))
  }

  ghost predicate CountsOk(nm: Naming, t: Tree) {
    forall path :: path in t.counts ==> t.counts[path] <= FILES_PER_DIR && exists at :: MonthDirOf(nm, t, at, path)
  }

  ghost predicate Inv(nm: Naming, t: Tree) {
    [] in t.dirs && DirsOk(nm, t) && MonthsOk(nm, t) && CountsOk(nm, t)
  }

  /** Nothing a tree holds is renamed or given to another owner. */
  ghost predicate Grows(t: Tree, t': Tree) {
    forall at :: at in t.dirs ==>
      at in t'.dirs && t'.dirs[at].rel == t.dirs[at].rel
      && forall key :: key in t.dirs[at].used ==> key in t'.dirs[at].used && t'.dirs[at].used[key] == t.dirs[at].used[key]
  }

  lemma GrowsTwice(t: Tree, t': Tree, t'': Tree)
    requires Grows(t, t') && Grows(t', t'')
    ensures Grows(t, t'')
  {
  }

  lemma MonthDirStays(nm: Naming, t: Tree, t': Tree, at: seq<string>, path: seq<string>)
    requires Grows(t, t') && MonthDirOf(nm, t, at, path)
    ensures MonthDirOf(nm, t', at, path)
  {
  }

  lemma ChildOf(nm: Naming, t: Tree, at: seq<string>)
    requires at in t.dirs && DirOk(nm, t, at)
    ensures |t.dirs[at].rel| == |at| + 1
    ensures at != [] ==>
              at[..|at| - 1] in t.dirs
              && t.dirs[at[..|at| - 1]].rel == t.dirs[at].rel[..|at|]
              && Owns(nm, t.dirs[at[..|at| - 1]], t.dirs[at].rel[|at|], OfFolder(at[|at| - 1]))
  {
  }

  lemma OneOwner(nm: Naming, d: Dir, name: string, name': string, a: Owner, b: Owner)
    requires Owns(nm, d, name, a) && Owns(nm, d, name', b) && nm.fold(name) == nm.fold(name')
    ensures a == b
  {
  }

  lemma AlikePrefix(nm: Naming, p: seq<string>, q: seq<string>, n: nat)
    requires Alike(nm, p, q) && n <= |p|
    ensures Alike(nm, p[..n], q[..n])
  {
  }

  /** Different folders have paths that differ in a folded segment. */
  lemma {:induction false} RelTells(nm: Naming, t: Tree, a: seq<string>, b: seq<string>)
    requires DirsOk(nm, t) && a in t.dirs && b in t.dirs && Alike(nm, t.dirs[a].rel, t.dirs[b].rel)
    ensures a == b
    decreases |a|
  {
    hide DirOk;
    assert DirOk(nm, t, a) && DirOk(nm, t, b);
    ChildOf(nm, t, a);
    ChildOf(nm, t, b);
    if a != [] {
      AlikePrefix(nm, t.dirs[a].rel, t.dirs[b].rel, |a|);
      var name, name' := t.dirs[a].rel[|a|], t.dirs[b].rel[|b|];
      hide Owns;
      RelTells(nm, t, a[..|a| - 1], b[..|b| - 1]);
      OneOwner(nm, t.dirs[a[..|a| - 1]], name, name', OfFolder(a[|a| - 1]), OfFolder(b[|b| - 1]));
      assert a == a[..|a| - 1] + [a[|a| - 1]] && b == b[..|b| - 1] + [b[|b| - 1]];
    }
  }

  lemma DirStays(nm: Naming, t: Tree, t': Tree, at: seq<string>)
    requires Grows(t, t') && at in t.dirs && DirOk(nm, t, at)
    ensures DirOk(nm, t', at)
  {
  }

  /** Month directories of different folders, or different ones of one, differ in a folded segment. */
  lemma MonthDirTells(nm: Naming, t: Tree, a: seq<string>, b: seq<string>, p: seq<string>, q: seq<string>)
    requires DirsOk(nm, t) && MonthDirOf(nm, t, a, p) && MonthDirOf(nm, t, b, q) && Alike(nm, p, q)
    ensures a == b && p == q
  {
    hide DirOk;
    AlikePrefix(nm, p, q, |p| - 1);
    RelTells(nm, t, a, b);
    assert p == p[..|p| - 1] + [p[|p| - 1]] && q == q[..|q| - 1] + [q[|q| - 1]];
  }

  /** No month directory is a folder. */
  lemma MonthIsNoFolder(nm: Naming, t: Tree, at: seq<string>, path: seq<string>, folder: seq<string>)
    requires DirsOk(nm, t) && MonthDirOf(nm, t, at, path) && folder in t.dirs
    ensures !Alike(nm, t.dirs[folder].rel, path)
  {
    hide DirOk;
    assert DirOk(nm, t, at) && DirOk(nm, t, folder);
    ChildOf(nm, t, at);
    ChildOf(nm, t, folder);
    if Alike(nm, t.dirs[folder].rel, path) {
      var parent := folder[..|folder| - 1];
      AlikePrefix(nm, t.dirs[folder].rel, path, |folder|);
      RelTells(nm, t, parent, at);
    }
  }

  // ---- making a folder

  lemma EnterKeeps(nm: Naming, t: Tree, at: seq<string>, ref: Ref)
    requires RefPlain(nm, ref) && Inv(nm, t) && at in t.dirs && FreeAt(nm, t, at, ref)
    ensures Inv(nm, Enter(nm, t, at, ref)) && Grows(t, Enter(nm, t, at, ref)) && Enter(nm, t, at, ref).counts == t.counts
  {
    if at + [ref.id] !in t.dirs {
      FolderNameFree(nm, t.dirs[at].used, ref);
      EnterGrows(nm, t, at, ref);
      EnterDirs(nm, t, at, ref);
      EnterKeys(nm, t, at, ref);
      CountsStay(nm, t, Enter(nm, t, at, ref));
    }
  }

  lemma EnterGrows(nm: Naming, t: Tree, at: seq<string>, ref: Ref)
    requires at in t.dirs && at + [ref.id] !in t.dirs
    requires nm.fold(FolderName(nm, t.dirs[at].used, ref)) !in t.dirs[at].used
    ensures Grows(t, Enter(nm, t, at, ref))
    ensures MonthsOk(nm, t) ==> MonthsOk(nm, Enter(nm, t, at, ref))
  {
    hide FolderName;
  }

  lemma EnterDirs(nm: Naming, t: Tree, at: seq<string>, ref: Ref)
    requires RefPlain(nm, ref) && DirsOk(nm, t) && at in t.dirs && at + [ref.id] !in t.dirs
    requires nm.fold(FolderName(nm, t.dirs[at].used, ref)) !in t.dirs[at].used
    ensures forall x :: x in Enter(nm, t, at, ref).dirs ==> DirOk(nm, Enter(nm, t, at, ref), x)
  {
    hide DirOk;
    var t' := Enter(nm, t, at, ref);
    assert DirOk(nm, t, at);
    NewDirOk(nm, t, at, ref);
    EnterGrows(nm, t, at, ref);
    hide FolderName;
    forall x | x in t'.dirs ensures DirOk(nm, t', x) {
      if x != at + [ref.id] {
        assert x in t.dirs;
        DirStays(nm, t, t', x);
      }
    }
  }

  lemma NewDirOk(nm: Naming, t: Tree, at: seq<string>, ref: Ref)
    requires RefPlain(nm, ref) && at in t.dirs && at + [ref.id] !in t.dirs && DirOk(nm, t, at)
    ensures DirOk(nm, Enter(nm, t, at, ref), at + [ref.id])
  {
    FolderNameFree(nm, t.dirs[at].used, ref);
    hide FolderName;
    var child := at + [ref.id];
    assert child[..|child| - 1] == at;
  }

  lemma EnterKeys(nm: Naming, t: Tree, at: seq<string>, ref: Ref)
    requires DirsOk(nm, t) && at in t.dirs && at + [ref.id] !in t.dirs
    requires nm.fold(FolderName(nm, t.dirs[at].used, ref)) !in t.dirs[at].used
    ensures var t' := Enter(nm, t, at, ref);
      forall x, key :: x in t'.dirs && key in t'.dirs[x].used ==> KeyOk(nm, t', x, key)
  {
    var key0 := nm.fold(FolderName(nm, t.dirs[at].used, ref));
    hide FolderName;
    var t' := Enter(nm, t, at, ref);
    forall x, key | x in t'.dirs && key in t'.dirs[x].used ensures KeyOk(nm, t', x, key) {
      if x == at && key == key0 {
        assert t'.dirs[x].used[key] == OfFolder(ref.id);
      } else {
        assert KeyOk(nm, t, x, key);
      }
    }
  }

  lemma CountsStay(nm: Naming, t: Tree, t': Tree)
    requires CountsOk(nm, t) && Grows(t, t') && t'.counts == t.counts
    ensures CountsOk(nm, t')
  {
    forall path | path in t'.counts ensures exists at :: MonthDirOf(nm, t', at, path) {
      var at :| MonthDirOf(nm, t, at, path);
      MonthDirStays(nm, t, t', at, path);
    }
  }

  lemma {:induction false} DescendKeeps(nm: Naming, t: Tree, refs: seq<Ref>)
    requires Inv(nm, t) && FreeDown(nm, t, refs) && forall k :: 0 <= k < |refs| ==> RefPlain(nm, refs[k])
    ensures var t' := Descend(nm, t, refs);
      Inv(nm, t') && Grows(t, t') && t'.counts == t.counts
  {
    if refs != [] {
      var front := refs[..|refs| - 1];
      DescendKeeps(nm, t, front);
      hide Inv;
      hide FreeAt;
      EnterKeeps(nm, Descend(nm, t, front), Ids(front), refs[|refs| - 1]);
      GrowsTwice(t, Descend(nm, t, front), Descend(nm, t, refs));
    }
  }

  // ---- starting a month's part

  lemma StartGrows(nm: Naming, t: Tree, at: seq<string>, month: string)
    requires MonthTold(nm, month) && at in t.dirs
    ensures var t', name := StartPart(nm, t, at, month), NextPart(nm, t, at, month).name;
      && Grows(t, t') && t'.counts == t.counts && t'.dirs.Keys == t.dirs.Keys
      && nm.fold(name) !in t.dirs[at].used && MonthDirOf(nm, t', at, t'.dirs[at].rel + [name])
      && (MonthsOk(nm, t) ==> MonthsOk(nm, t'))
  {
    var d := t.dirs[at];
    FirstFreeIsFree(PartKeys(nm, month), d.used.Keys, LastPart(d, month) + 1);
    hide FirstFree;
  }

  lemma StartKeys(nm: Naming, t: Tree, at: seq<string>, month: string)
    requires MonthTold(nm, month) && DirsOk(nm, t) && at in t.dirs
    ensures DirsOk(nm, StartPart(nm, t, at, month))
  {
    hide DirOk;
    hide FirstFree;
    var t', p := StartPart(nm, t, at, month), NextPart(nm, t, at, month);
    StartGrows(nm, t, at, month);
    forall x | x in t'.dirs ensures DirOk(nm, t', x) {
      DirStays(nm, t, t', x);
    }
    forall x, key | x in t'.dirs && key in t'.dirs[x].used ensures KeyOk(nm, t', x, key) {
      if x != at || key != nm.fold(p.name) {
        assert KeyOk(nm, t, x, key);
      }
    }
  }

  lemma MonthKeeps(nm: Naming, t: Tree, at: seq<string>, month: string, files: nat)
    requires MonthTold(nm, month) && Inv(nm, t) && at in t.dirs && files <= FILES_PER_DIR
    ensures var t', name := MonthTree(nm, t, at, month, files), MonthName(nm, t, at, month, files);
      && Inv(nm, t') && Grows(t, t') && t'.counts == t.counts && at in t'.dirs
      && MonthDirOf(nm, t', at, t.dirs[at].rel + [name])
      && CountOf(t', t.dirs[at].rel + [name]) + files <= FILES_PER_DIR
  {
    var d := t.dirs[at];
    if !HasRoom(t, at, month, files) {
      StartGrows(nm, t, at, month);
      StartKeys(nm, t, at, month);
      var t', name := StartPart(nm, t, at, month), NextPart(nm, t, at, month).name;
      hide StartPart;
      hide NextPart;
      CountsStay(nm, t, t');
      NotCounted(nm, t, at, name);
    }
  }

  /** A name whose key is free counts no files yet: a counted path is a month directory of one folder. */
  lemma NotCounted(nm: Naming, t: Tree, at: seq<string>, name: string)
    requires DirsOk(nm, t) && CountsOk(nm, t) && at in t.dirs && nm.fold(name) !in t.dirs[at].used
    ensures CountOf(t, t.dirs[at].rel + [name]) == 0
  {
    var path := t.dirs[at].rel + [name];
    if path in t.counts {
      var x :| MonthDirOf(nm, t, x, path);
      hide DirOk;
      assert t.dirs[x].rel == t.dirs[at].rel by {
        assert DirOk(nm, t, x) && DirOk(nm, t, at);
        ChildOf(nm, t, x);
        ChildOf(nm, t, at);
      }
      assert Alike(nm, t.dirs[x].rel, t.dirs[at].rel);
      RelTells(nm, t, x, at);
    }
  }

  lemma SameDirs(nm: Naming, t: Tree, t': Tree)
    requires t.dirs == t'.dirs && DirsOk(nm, t)
    ensures DirsOk(nm, t')
  {
    forall x | x in t'.dirs ensures DirOk(nm, t', x) {
      assert DirOk(nm, t, x);
    }
    forall x, key | x in t'.dirs && key in t'.dirs[x].used ensures KeyOk(nm, t', x, key) {
      assert KeyOk(nm, t, x, key);
    }
  }

  lemma AddCounts(nm: Naming, t: Tree, at: seq<string>, dir: seq<string>, files: nat)
    requires CountsOk(nm, t) && MonthDirOf(nm, t, at, dir) && CountOf(t, dir) + files <= FILES_PER_DIR
    ensures CountsOk(nm, AddFiles(t, dir, files))
  {
    var t' := AddFiles(t, dir, files);
    forall path | path in t'.counts ensures exists x :: MonthDirOf(nm, t', x, path) {
      var x :| if path == dir then x == at else MonthDirOf(nm, t, x, path);
      assert MonthDirOf(nm, t', x, path);
    }
  }

  lemma AddKeeps(nm: Naming, t: Tree, at: seq<string>, dir: seq<string>, files: nat)
    requires Inv(nm, t) && MonthDirOf(nm, t, at, dir) && CountOf(t, dir) + files <= FILES_PER_DIR
    ensures Inv(nm, AddFiles(t, dir, files)) && Grows(t, AddFiles(t, dir, files))
  {
    SameDirs(nm, t, AddFiles(t, dir, files));
    AddCounts(nm, t, at, dir, files);
    hide DirsOk;
    hide CountsOk;
    hide MonthDirOf;
  }

  // ---- a run

  /** What a placement does to a tree. */
  ghost predicate PlacedBy(nm: Naming, t: Tree, t': Tree, p: Placed) {
    && Inv(nm, t') && Grows(t, t') && MonthDirOf(nm, t', p.at, p.dir)
    && t'.counts == t.counts[p.dir := CountOf(t, p.dir) + p.files]
  }

  lemma PlaceSteps(nm: Naming, t: Tree, t1: Tree, t2: Tree, p: Placed)
    requires Grows(t, t1) && t1.counts == t.counts
    requires Inv(nm, t2) && Grows(t1, t2) && t2.counts == t1.counts
    requires MonthDirOf(nm, t2, p.at, p.dir) && CountOf(t2, p.dir) + p.files <= FILES_PER_DIR
    ensures PlacedBy(nm, t, AddFiles(t2, p.dir, p.files), p)
  {
    hide Inv;
    var t' := AddFiles(t2, p.dir, p.files);
    AddKeeps(nm, t2, p.at, p.dir, p.files);
    GrowsTwice(t, t1, t2);
    GrowsTwice(t, t2, t');
    hide MonthDirOf;
    hide Grows;
    MonthDirStays(nm, t2, t', p.at, p.dir);
  }

  lemma PlaceKeeps(nm: Naming, preserve: bool, t: Tree, m: Message)
    requires MonthTold(nm, m.month) && forall k :: 0 <= k < |m.folder| ==> RefPlain(nm, m.folder[k])
    requires Inv(nm, t) && m.files <= FILES_PER_DIR && FreeDown(nm, t, Home(preserve, m))
    ensures PlacedBy(nm, t, PlaceTree(nm, preserve, t, m), PlaceDir(nm, preserve, t, m))
  {
    var refs := Home(preserve, m);
    DescendKeeps(nm, t, refs);
    assert [] in t.dirs;
    var p := PlaceDir(nm, preserve, t, m);
    var t1 := Descend(nm, t, refs);
    hide Inv;
    hide Descend;
    hide MonthTree;
    hide MonthName;
    hide MonthDirOf;
    hide Grows;
    MonthKeeps(nm, t1, p.at, m.month, m.files);
    PlaceSteps(nm, t, t1, MonthTree(nm, t1, p.at, m.month, m.files), p);
  }

  /** The files of the messages placed in a directory. */
  function FilesIn(places: seq<Placed>, dir: seq<string>): nat {
    if places == [] then 0
    else
      var last := places[|places| - 1];
      FilesIn(places[..|places| - 1], dir) + (if last.dir == dir then last.files else 0)
  }

  ghost predicate Sized(ms: seq<Message>) { forall i :: 0 <= i < |ms| ==> ms[i].files <= FILES_PER_DIR }

  ghost predicate AllPlaced(nm: Naming, t: Tree, places: seq<Placed>) {
    forall i :: 0 <= i < |places| ==> MonthDirOf(nm, t, places[i].at, places[i].dir)
  }

  /** What a run keeps: the invariant, every message in a month directory of its folder, and counts that
      count the files placed. */
  ghost predicate RunOk(nm: Naming, t: Tree, places: seq<Placed>) {
    && Inv(nm, t) && AllPlaced(nm, t, places)
    && forall dir :: FilesIn(places, dir) == CountOf(t, dir)
  }

  lemma RunMore(nm: Naming, t: Tree, t': Tree, places: seq<Placed>, p: Placed)
    requires RunOk(nm, t, places) && PlacedBy(nm, t, t', p)
    ensures RunOk(nm, t', places + [p])
  {
    hide Inv;
    hide MonthDirOf;
    hide Grows;
    PlacedMore(nm, t, t', places, p);
    forall dir ensures FilesIn(places + [p], dir) == CountOf(t', dir) {
      FilesMore(t, t', places, p, dir);
    }
  }

  lemma {:induction false} RunKeeps(nm: Naming, preserve: bool, ms: seq<Message>)
    requires Told(nm, ms) && Sized(ms) && FoldersFree(nm, preserve, ms)
    ensures RunOk(nm, Run(nm, preserve, ms), Places(nm, preserve, ms))
  {
    if ms != [] {
      var front, last := ms[..|ms| - 1], ms[|ms| - 1];
      RunKeeps(nm, preserve, front);
      var t, t' := Run(nm, preserve, front), Run(nm, preserve, ms);
      PlaceKeeps(nm, preserve, t, last);
      PlaceFiles(nm, preserve, t, last);
      var places, p := Places(nm, preserve, front), PlaceDir(nm, preserve, t, last);
      assert t' == PlaceTree(nm, preserve, t, last);
      assert Places(nm, preserve, ms) == places + [p];
      hide *;
      RunMore(nm, t, t', places, p);
    } else {
      EmptyOk(nm);
    }
  }

  lemma PlacedMore(nm: Naming, t: Tree, t': Tree, places: seq<Placed>, p: Placed)
    requires AllPlaced(nm, t, places) && Grows(t, t') && MonthDirOf(nm, t', p.at, p.dir)
    ensures AllPlaced(nm, t', places + [p])
  {
    forall i | 0 <= i < |places| ensures MonthDirOf(nm, t', places[i].at, places[i].dir) {
      MonthDirStays(nm, t, t', places[i].at, places[i].dir);
    }
    hide Grows;
  }

  lemma FilesMore(t: Tree, t': Tree, places: seq<Placed>, p: Placed, dir: seq<string>)
    requires t'.counts == t.counts[p.dir := CountOf(t, p.dir) + p.files]
    requires FilesIn(places, dir) == CountOf(t, dir)
    ensures FilesIn(places + [p], dir) == CountOf(t', dir)
  {
    assert (places + [p])[..|places|] == places;
  }

  lemma PlaceFiles(nm: Naming, preserve: bool, t: Tree, m: Message)
    requires [] in t.dirs
    ensures PlaceDir(nm, preserve, t, m).files == m.files && PlaceDir(nm, preserve, t, m).at == Ids(Home(preserve, m))
  {
  }

  lemma EmptyOk(nm: Naming)
    ensures Inv(nm, Empty())
  {
  }

  /** Over any messages of at most 1,000 files each, no directory is given more than 1,000 files, as long as
      every folder made found a name. */
  lemma NoDirectoryOverflows(nm: Naming, preserve: bool, ms: seq<Message>, dir: seq<string>)
    requires Told(nm, ms) && Sized(ms) && FoldersFree(nm, preserve, ms)
    ensures FilesIn(Places(nm, preserve, ms), dir) <= FILES_PER_DIR
  {
    RunKeeps(nm, preserve, ms);
    var t := Run(nm, preserve, ms);
    assert dir in t.counts ==> t.counts[dir] <= FILES_PER_DIR;
  }

  /** The path as it is written. */
  function PathText(segments: seq<string>): string { Join(segments, '/') }

  lemma {:induction false} PlacedAts(nm: Naming, preserve: bool, ms: seq<Message>, i: nat)
    requires i < |ms|
    ensures Places(nm, preserve, ms)[i].at == Ids(Home(preserve, ms[i]))
    decreases |ms|
  {
    var front := ms[..|ms| - 1];
    PlaceFiles(nm, preserve, Run(nm, preserve, front), ms[|ms| - 1]);
    if i < |ms| - 1 {
      PlacedAts(nm, preserve, front, i);
    }
  }

  lemma PlainPath(nm: Naming, t: Tree, at: seq<string>, path: seq<string>)
    requires DirsOk(nm, t) && MonthDirOf(nm, t, at, path)
    ensures forall i :: 0 <= i < |path| ==> '/' !in path[i]
  {
    var d, name := t.dirs[at], path[|path| - 1];
    assert DirOk(nm, t, at) && KeyOk(nm, t, at, nm.fold(name));
    assert path == d.rel + [name];
  }

  /** Folders never merge: messages of different source folders are in directories that are two on a volume
      that folds names, and so under two written paths, as long as every folder made found a name. */
  lemma FoldersNeverMerge(nm: Naming, ms: seq<Message>, i: nat, j: nat)
    requires Told(nm, ms) && Sized(ms) && FoldersFree(nm, true, ms) && i < |ms| && j < |ms|
    requires Ids(ms[i].folder) != Ids(ms[j].folder)
    ensures var p, q := Places(nm, true, ms)[i].dir, Places(nm, true, ms)[j].dir;
      !Alike(nm, p, q) && PathText(p) != PathText(q)
  {
    RunKeeps(nm, true, ms);
    PlacedAts(nm, true, ms, i);
    PlacedAts(nm, true, ms, j);
    var t, places := Run(nm, true, ms), Places(nm, true, ms);
    hide Run;
    hide Places;
    PathsTell(nm, t, places[i], places[j]);
  }

  lemma PathsTell(nm: Naming, t: Tree, p: Placed, q: Placed)
    requires Inv(nm, t) && MonthDirOf(nm, t, p.at, p.dir) && MonthDirOf(nm, t, q.at, q.dir) && p.at != q.at
    ensures !Alike(nm, p.dir, q.dir) && PathText(p.dir) != PathText(q.dir)
  {
    PlainPath(nm, t, p.at, p.dir);
    PlainPath(nm, t, q.at, q.dir);
    if PathText(p.dir) == PathText(q.dir) {
      SplitJoin(p.dir, '/');
      SplitJoin(q.dir, '/');
      assert Alike(nm, p.dir, q.dir);
    }
    hide MonthDirOf;
    if Alike(nm, p.dir, q.dir) {
      MonthDirTells(nm, t, p.at, q.at, p.dir, q.dir);
    }
  }

  // ---- a month's directory is used while it has room

  /** The month's current directory in a folder. */
  function MonthAt(t: Tree, at: seq<string>, month: string): Option<seq<string>> {
    if at in t.dirs && month in t.dirs[at].months then Some(t.dirs[at].rel + [t.dirs[at].months[month].name]) else None
  }

  lemma {:induction false} DescendMonth(nm: Naming, t: Tree, refs: seq<Ref>, at: seq<string>, month: string)
    requires [] in t.dirs && at in t.dirs
    ensures var t' := Descend(nm, t, refs);
      at in t'.dirs && MonthAt(t', at, month) == MonthAt(t, at, month) && t'.counts == t.counts
  {
    hide FolderName;
    if refs != [] {
      DescendMonth(nm, t, refs[..|refs| - 1], at, month);
    }
  }

  lemma MonthTreeMonth(nm: Naming, t: Tree, at: seq<string>, month: string, files: nat, at': seq<string>, month': string)
    requires at in t.dirs && at' in t.dirs
    ensures var t' := MonthTree(nm, t, at, month, files);
      && at' in t'.dirs
      && MonthAt(t', at', month') == if at' == at && month' == month
                                     then Some(t.dirs[at].rel + [MonthName(nm, t, at, month, files)])
                                     else MonthAt(t, at', month')
  {
    hide FirstFree;
  }

  /** A placement changes the current directory of its own folder's month only. */
  lemma PlaceMonth(nm: Naming, preserve: bool, t: Tree, m: Message, at: seq<string>, month: string)
    requires [] in t.dirs
    ensures var t', home := PlaceTree(nm, preserve, t, m), Ids(Home(preserve, m));
      && (at == home && month == m.month ==> MonthAt(t', at, month) == Some(PlaceDir(nm, preserve, t, m).dir))
      && (at in t.dirs && (at != home || month != m.month) ==> at in t'.dirs && MonthAt(t', at, month) == MonthAt(t, at, month))
      && (at == home ==> at in t'.dirs)
  {
    var refs := Home(preserve, m);
    var t1 := Descend(nm, t, refs);
    if at in t.dirs {
      DescendMonth(nm, t, refs, at, month);
    }
    MonthTreeMonth(nm, t1, Ids(refs), m.month, m.files, if at in t1.dirs then at else Ids(refs), month);
    hide Descend, MonthTree, MonthName;
  }

  /** No message of that folder and month from i on up to j. */
  ghost predicate NoneOf(preserve: bool, ms: seq<Message>, i: nat, j: nat, at: seq<string>, month: string)
    requires j <= |ms|
  {
    forall k :: i <= k < j ==> Ids(Home(preserve, ms[k])) != at || ms[k].month != month
  }

  lemma RunStep(nm: Naming, preserve: bool, ms: seq<Message>, j: nat)
    requires 0 < j <= |ms|
    ensures Run(nm, preserve, ms[..j]) == PlaceTree(nm, preserve, Run(nm, preserve, ms[..j - 1]), ms[j - 1])
  {
    assert ms[..j][..j - 1] == ms[..j - 1];
    hide PlaceTree;
  }

  lemma {:induction false} MonthStands(nm: Naming, preserve: bool, ms: seq<Message>, i: nat, j: nat, at: seq<string>, month: string)
    requires i < j <= |ms| && at == Ids(Home(preserve, ms[i])) && month == ms[i].month
    requires NoneOf(preserve, ms, i + 1, j, at, month)
    ensures var t := Run(nm, preserve, ms[..j]);
      at in t.dirs && MonthAt(t, at, month) == Some(PlaceDir(nm, preserve, Run(nm, preserve, ms[..i]), ms[i]).dir)
    decreases j
  {
    RunStep(nm, preserve, ms, j);
    PlaceMonth(nm, preserve, Run(nm, preserve, ms[..j - 1]), ms[j - 1], at, month);
    assert i < j - 1 ==> Ids(Home(preserve, ms[j - 1])) != at || ms[j - 1].month != month;
    assert NoneOf(preserve, ms, i + 1, j - 1, at, month) || i == j - 1;
    hide *;
    if i < j - 1 {
      MonthStands(nm, preserve, ms, i, j - 1, at, month);
    }
  }

  lemma {:induction false} PlacesPrefix(nm: Naming, preserve: bool, ms: seq<Message>, j: nat)
    requires j < |ms|
    ensures Places(nm, preserve, ms)[..j] == Places(nm, preserve, ms[..j])
    ensures Places(nm, preserve, ms)[j] == PlaceDir(nm, preserve, Run(nm, preserve, ms[..j]), ms[j])
    decreases |ms|
  {
    var front := ms[..|ms| - 1];
    if j < |ms| - 1 {
      assert front[..j] == ms[..j];
      PlacesPrefix(nm, preserve, front, j);
    }
    hide PlaceDir, Run;
  }

  lemma {:induction false} RunPrefix(nm: Naming, preserve: bool, ms: seq<Message>, j: nat)
    requires j < |ms| && Told(nm, ms) && Sized(ms) && FoldersFree(nm, preserve, ms)
    ensures Told(nm, ms[..j]) && Sized(ms[..j]) && FoldersFree(nm, preserve, ms[..j])
    ensures FreeDown(nm, Run(nm, preserve, ms[..j]), Home(preserve, ms[j]))
    decreases |ms|
  {
    var front := ms[..|ms| - 1];
    hide FreeDown, Run, MonthTold, RefPlain;
    if j < |ms| - 1 {
      assert front[..j] == ms[..j] && front[j] == ms[j];
      RunPrefix(nm, preserve, front, j);
    }
  }

  /** What the choice of a month's directory rests on. */
  lemma MonthChosen(nm: Naming, t: Tree, at: seq<string>, month: string, files: nat, dir: seq<string>)
    requires Inv(nm, t) && MonthTold(nm, month) && at in t.dirs && MonthAt(t, at, month) == Some(dir)
    ensures t.dirs[at].rel + [MonthName(nm, t, at, month, files)] == dir <==> CountOf(t, dir) + files <= FILES_PER_DIR
  {
    StartGrows(nm, t, at, month);
    var d := t.dirs[at];
    var name := d.months[month].name;
    assert Owns(nm, d, name, OfMonth(name));
    hide Inv, NextPart, StartPart;
    assert (d.rel + [NextPart(nm, t, at, month).name])[|d.rel|] == NextPart(nm, t, at, month).name;
    assert dir[|d.rel|] == name;
  }

  lemma RoomDecides(nm: Naming, preserve: bool, t: Tree, m: Message, dir: seq<string>)
    requires Inv(nm, t) && MonthTold(nm, m.month) && forall k :: 0 <= k < |m.folder| ==> RefPlain(nm, m.folder[k])
    requires FreeDown(nm, t, Home(preserve, m)) && Ids(Home(preserve, m)) in t.dirs && [] in t.dirs
    requires MonthAt(t, Ids(Home(preserve, m)), m.month) == Some(dir)
    ensures PlaceDir(nm, preserve, t, m).dir == dir <==> CountOf(t, dir) + m.files <= FILES_PER_DIR
  {
    var refs := Home(preserve, m);
    var at, t1 := Ids(refs), Descend(nm, t, refs);
    assert PlaceDir(nm, preserve, t, m).dir == t1.dirs[at].rel + [MonthName(nm, t1, at, m.month, m.files)];
    hide Inv, Descend, FreeDown, MonthName, MonthAt, MonthTold, RefPlain, PlaceDir;
    DescendMonth(nm, t, refs, at, m.month);
    DescendKeeps(nm, t, refs);
    MonthChosen(nm, t1, at, m.month, m.files, dir);
  }

  /** Of two messages of one folder and month with none between them, the second is put where the first was exactly
      when its files fit there: a new directory is started only when the current one would pass 1,000 files. */
  lemma RoomIsUsed(nm: Naming, preserve: bool, ms: seq<Message>, i: nat, j: nat)
    requires Told(nm, ms) && Sized(ms) && FoldersFree(nm, preserve, ms) && i < j < |ms|
    requires Ids(Home(preserve, ms[i])) == Ids(Home(preserve, ms[j])) && ms[i].month == ms[j].month
    requires NoneOf(preserve, ms, i + 1, j, Ids(Home(preserve, ms[i])), ms[i].month)
    ensures var places := Places(nm, preserve, ms);
      places[j].dir == places[i].dir <==> FilesIn(places[..j], places[i].dir) + ms[j].files <= FILES_PER_DIR
  {
    var at := Ids(Home(preserve, ms[i]));
    var t, dir := Run(nm, preserve, ms[..j]), Places(nm, preserve, ms)[i].dir;
    assert MonthTold(nm, ms[j].month) && forall k :: 0 <= k < |ms[j].folder| ==> RefPlain(nm, ms[j].folder[k]);
    hide *;
    PlacesPrefix(nm, preserve, ms, i);
    PlacesPrefix(nm, preserve, ms, j);
    RunPrefix(nm, preserve, ms, j);
    RunKeeps(nm, preserve, ms[..j]);
    MonthStands(nm, preserve, ms, i, j, at, ms[i].month);
    RunOkIs(nm, t, Places(nm, preserve, ms[..j]), dir);
    RoomDecides(nm, preserve, t, ms[j], dir);
  }

  lemma RunOkIs(nm: Naming, t: Tree, places: seq<Placed>, dir: seq<string>)
    requires RunOk(nm, t, places)
    ensures Inv(nm, t) && [] in t.dirs && FilesIn(places, dir) == CountOf(t, dir)
  {
    hide DirsOk, MonthsOk, CountsOk;
  }
}
