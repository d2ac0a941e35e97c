/** When folders keep apart: exactly when every folder made found a name, which the hashes of the folders'
    ids settle but for names that spell them out. */
module NamerApart {
  import opened FreeNumber
  import opened Namer

  /** Every directory of a tree, folder's or month's, has a path of its own where names that fold alike are
      one name. */
  ghost predicate Apart(nm: Naming, t: Tree) {
    && (forall a, b :: a in t.dirs && b in t.dirs && Alike(nm, t.dirs[a].rel, t.dirs[b].rel) ==> a == b)
    && (forall a, path :: a in t.dirs && path in t.counts ==> !Alike(nm, t.dirs[a].rel, path))
    && (forall p, q :: p in t.counts && q in t.counts && Alike(nm, p, q) ==> p == q)
  }

  lemma InvApart(nm: Naming, t: Tree)
    requires Inv(nm, t)
    ensures Apart(nm, t)
  {
    hide DirOk;
    forall a, b | a in t.dirs && b in t.dirs && Alike(nm, t.dirs[a].rel, t.dirs[b].rel) ensures a == b {
      RelTells(nm, t, a, b);
    }
    forall a, path | a in t.dirs && path in t.counts ensures !Alike(nm, t.dirs[a].rel, path) {
      var at :| MonthDirOf(nm, t, at, path);
      MonthIsNoFolder(nm, t, at, path, a);
    }
    forall p, q | p in t.counts && q in t.counts && Alike(nm, p, q) ensures p == q {
      var a :| MonthDirOf(nm, t, a, p);
      var b :| MonthDirOf(nm, t, b, q);
      MonthDirTells(nm, t, a, b, p, q);
    }
  }

  // ---- a folder that found no name

  /** A folder is another's directory, or a month's. */
  ghost predicate Clash(nm: Naming, t: Tree) {
    || (exists a, b :: a in t.dirs && b in t.dirs && a != b && Alike(nm, t.dirs[a].rel, t.dirs[b].rel))
    || (exists a, path :: a in t.dirs && path in t.counts && Alike(nm, t.dirs[a].rel, path))
  }

  lemma ClashIsNotApart(nm: Naming, t: Tree)
    requires Clash(nm, t)
    ensures !Apart(nm, t)
  {
  }

  /** No directory is moved or forgotten. */
  ghost predicate Stays(t: Tree, t': Tree) {
    && (forall at :: at in t.dirs ==> at in t'.dirs && t'.dirs[at].rel == t.dirs[at].rel)
    && t.counts.Keys <= t'.counts.Keys
  }

  lemma ClashStays(nm: Naming, t: Tree, t': Tree)
    requires Clash(nm, t) && Stays(t, t')
    ensures Clash(nm, t')
  {
    if a, b :| a in t.dirs && b in t.dirs && a != b && Alike(nm, t.dirs[a].rel, t.dirs[b].rel) {
      assert Alike(nm, t'.dirs[a].rel, t'.dirs[b].rel);
    } else {
      var a, path :| a in t.dirs && path in t.counts && Alike(nm, t.dirs[a].rel, path);
      assert Alike(nm, t'.dirs[a].rel, path);
    }
  }

  lemma StaysTwice(t: Tree, t': Tree, t'': Tree)
    requires Stays(t, t') && Stays(t', t'')
    ensures Stays(t, t'')
  {
  }

  lemma EnterStays(nm: Naming, t: Tree, at: seq<string>, ref: Ref)
    requires at in t.dirs
    ensures Stays(t, Enter(nm, t, at, ref)) && Enter(nm, t, at, ref).counts == t.counts
  {
    hide FolderName;
  }

  lemma {:induction false} DescendStays(nm: Naming, t: Tree, refs: seq<Ref>)
    requires [] in t.dirs
    ensures Stays(t, Descend(nm, t, refs)) && Descend(nm, t, refs).counts == t.counts
  {
    if refs != [] {
      var front := refs[..|refs| - 1];
      DescendStays(nm, t, front);
      EnterStays(nm, Descend(nm, t, front), Ids(front), refs[|refs| - 1]);
      StaysTwice(t, Descend(nm, t, front), Descend(nm, t, refs));
    }
  }

  lemma MonthStays(nm: Naming, t: Tree, at: seq<string>, month: string, files: nat)
    requires at in t.dirs
    ensures Stays(t, MonthTree(nm, t, at, month, files)) && MonthTree(nm, t, at, month, files).counts == t.counts
  {
    hide NextPart;
  }

  lemma PlaceStays(nm: Naming, preserve: bool, t: Tree, m: Message)
    requires [] in t.dirs
    ensures Stays(Descend(nm, t, Home(preserve, m)), PlaceTree(nm, preserve, t, m))
    ensures Stays(t, PlaceTree(nm, preserve, t, m))
  {
    var refs := Home(preserve, m);
    var t1 := Descend(nm, t, refs);
    DescendStays(nm, t, refs);
    MonthStays(nm, t1, Ids(refs), m.month, m.files);
    hide Descend, MonthTree, PlaceDir;
  }

  /** Every month directory has its files counted. */
  ghost predicate MonthsCounted(t: Tree) {
    forall at, key {:trigger t.dirs[at].used[key]} :: at in t.dirs && key in t.dirs[at].used ==>
      match t.dirs[at].used[key]
      case OfFolder(_) => true
      case OfMonth(name) => t.dirs[at].rel + [name] in t.counts
  }

  lemma EnterCounted(nm: Naming, t: Tree, at: seq<string>, ref: Ref)
    requires at in t.dirs && MonthsCounted(t)
    ensures MonthsCounted(Enter(nm, t, at, ref))
  {
    hide FolderName;
  }

  lemma {:induction false} DescendCounted(nm: Naming, t: Tree, refs: seq<Ref>)
    requires [] in t.dirs && MonthsCounted(t)
    ensures MonthsCounted(Descend(nm, t, refs))
  {
    if refs != [] {
      var front := refs[..|refs| - 1];
      DescendCounted(nm, t, front);
      EnterCounted(nm, Descend(nm, t, front), Ids(front), refs[|refs| - 1]);
    }
  }

  lemma MonthCounted(nm: Naming, t: Tree, at: seq<string>, month: string, files: nat)
    requires at in t.dirs && MonthsCounted(t)
    ensures MonthsCounted(AddFiles(MonthTree(nm, t, at, month, files), t.dirs[at].rel + [MonthName(nm, t, at, month, files)], files))
  {
    hide NextPart;
  }

  lemma {:induction false} RunCounted(nm: Naming, preserve: bool, ms: seq<Message>)
    ensures MonthsCounted(Run(nm, preserve, ms))
  {
    if ms != [] {
      var front, m := ms[..|ms| - 1], ms[|ms| - 1];
      RunCounted(nm, preserve, front);
      var t, refs := Run(nm, preserve, front), Home(preserve, m);
      DescendCounted(nm, t, refs);
      MonthCounted(nm, Descend(nm, t, refs), Ids(refs), m.month, m.files);
      hide Descend, MonthTree, MonthName, MonthsCounted;
    }
  }

  lemma AlikeLast(nm: Naming, rel: seq<string>, a: string, b: string)
    requires nm.fold(a) == nm.fold(b)
    ensures Alike(nm, rel + [a], rel + [b])
  {
  }

  /** The folder a key belongs to, by its path. */
  lemma OwnerFolder(nm: Naming, t: Tree, at: seq<string>, key: string)
    requires Inv(nm, t) && at in t.dirs && key in t.dirs[at].used && t.dirs[at].used[key].OfFolder?
    ensures var other := at + [t.dirs[at].used[key].id];
      other in t.dirs && exists name :: nm.fold(name) == key && t.dirs[other].rel == t.dirs[at].rel + [name]
  {
    var other := at + [t.dirs[at].used[key].id];
    assert KeyOk(nm, t, at, key);
    assert DirOk(nm, t, at) && DirOk(nm, t, other);
    ChildOf(nm, t, other);
    hide DirOk;
    assert other[..|other| - 1] == at;
    assert t.dirs[other].rel == t.dirs[at].rel + [t.dirs[other].rel[|at| + 1]];
  }

  lemma NewRel(nm: Naming, t: Tree, at: seq<string>, ref: Ref)
    requires at in t.dirs && at + [ref.id] !in t.dirs
    ensures Enter(nm, t, at, ref).dirs[at + [ref.id]].rel == t.dirs[at].rel + [FolderName(nm, t.dirs[at].used, ref)]
  {
    hide FolderName;
  }

  /** A folder made where no name is free is another folder's directory, or a month's. */
  lemma EnterClash(nm: Naming, t: Tree, at: seq<string>, ref: Ref)
    requires Inv(nm, t) && MonthsCounted(t) && at in t.dirs && !FreeAt(nm, t, at, ref)
    ensures Clash(nm, Enter(nm, t, at, ref))
  {
    var d, mine := t.dirs[at], at + [ref.id];
    var name := FolderName(nm, d.used, ref);
    FolderNameFree(nm, d.used, ref);
    NewRel(nm, t, at, ref);
    EnterStays(nm, t, at, ref);
    var key := nm.fold(name);
    var t' := Enter(nm, t, at, ref);
    assert mine in t'.dirs;
    hide FolderName, Enter, Alike;
    if d.used[key].OfFolder? {
      OwnerFolder(nm, t, at, key);
      hide Inv;
      var other := at + [d.used[key].id];
      var name' :| nm.fold(name') == key && t.dirs[other].rel == d.rel + [name'];
      AlikeLast(nm, d.rel, name, name');
      assert Alike(nm, t'.dirs[mine].rel, t'.dirs[other].rel);
    } else {
      assert KeyOk(nm, t, at, key);
      hide Inv;
      assert d.rel + [d.used[key].name] in t'.counts;
      AlikeLast(nm, d.rel, name, d.used[key].name);
    }
  }

  lemma {:induction false} DescendClash(nm: Naming, t: Tree, refs: seq<Ref>)
    requires Inv(nm, t) && MonthsCounted(t) && !FreeDown(nm, t, refs)
    requires forall k :: 0 <= k < |refs| ==> RefPlain(nm, refs[k])
    ensures Clash(nm, Descend(nm, t, refs))
  {
    assert [] in t.dirs;
    hide Inv;
    var front, last := refs[..|refs| - 1], refs[|refs| - 1];
    var t1 := Descend(nm, t, front);
    if FreeDown(nm, t, front) {
      DescendKeeps(nm, t, front);
      DescendCounted(nm, t, front);
      EnterClash(nm, t1, Ids(front), last);
    } else {
      DescendClash(nm, t, front);
      EnterStays(nm, t1, Ids(front), last);
      ClashStays(nm, t1, Enter(nm, t1, Ids(front), last));
    }
  }

  /** Over any messages every directory, folder's or month's, has a path of its own on a volume that folds
      names, exactly when every folder made found a free name. */
  lemma {:induction false} ApartExactly(nm: Naming, preserve: bool, ms: seq<Message>)
    requires Told(nm, ms) && Sized(ms)
    ensures Apart(nm, Run(nm, preserve, ms)) <==> FoldersFree(nm, preserve, ms)
  {
    if FoldersFree(nm, preserve, ms) {
      RunKeeps(nm, preserve, ms);
      InvApart(nm, Run(nm, preserve, ms));
    } else {
      RunClash(nm, preserve, ms);
      ClashIsNotApart(nm, Run(nm, preserve, ms));
    }
  }

  lemma {:induction false} RunClash(nm: Naming, preserve: bool, ms: seq<Message>)
    requires Told(nm, ms) && Sized(ms) && !FoldersFree(nm, preserve, ms)
    ensures Clash(nm, Run(nm, preserve, ms))
  {
    var front, m := ms[..|ms| - 1], ms[|ms| - 1];
    var t := Run(nm, preserve, front);
    var refs := Home(preserve, m);
    PlaceStays(nm, preserve, t, m);
    assert Run(nm, preserve, ms) == PlaceTree(nm, preserve, t, m);
    hide Run, PlaceTree, Descend, Clash;
    if FoldersFree(nm, preserve, front) {
      RunKeeps(nm, preserve, front);
      RunCounted(nm, preserve, front);
      hide Inv;
      assert Told(nm, ms) && m == ms[|ms| - 1];
      DescendClash(nm, t, refs);
      ClashStays(nm, Descend(nm, t, refs), PlaceTree(nm, preserve, t, m));
    } else {
      RunClash(nm, preserve, front);
      ClashStays(nm, t, PlaceTree(nm, preserve, t, m));
    }
  }

  // ---- what settles it

  /** A key that a folder may have been given. */
  predicate CandidateKey(nm: Naming, ref: Ref, key: string) {
    key == nm.fold(nm.first(ref)) || exists h :: h in RUNGS && key == nm.fold(nm.rung(ref, h))
  }

  /** The segment with 40 digits of a folder's hash is no candidate of a folder with another id, and no part
      of a month. */
  ghost predicate HashTells(nm: Naming, refs: set<Ref>, months: set<string>, a: Ref) {
    var key := nm.fold(nm.rung(a, 40));
    && (forall b {:trigger CandidateKey(nm, b, key)} :: b in refs && b.id != a.id ==> !CandidateKey(nm, b, key))
    && (forall month, i: nat {:trigger PartKeys(nm, month)(i)} :: month in months && i >= 1 ==> PartKeys(nm, month)(i) != key)
  }

  ghost predicate AllHashesTell(nm: Naming, refs: set<Ref>, months: set<string>) {
    forall a {:trigger HashTells(nm, refs, months, a)} :: a in refs ==> HashTells(nm, refs, months, a)
  }

  /** The messages' folders and months are among these. */
  predicate Covered(ms: seq<Message>, refs: set<Ref>, months: set<string>) {
    forall i :: 0 <= i < |ms| ==>
      ms[i].month in months && forall k :: 0 <= k < |ms[i].folder| ==> ms[i].folder[k] in refs
  }

  ghost predicate KeySourced(nm: Naming, owner: Owner, key: string, refs: set<Ref>, months: set<string>) {
    match owner
    case OfFolder(id) => exists b :: b in refs && b.id == id && CandidateKey(nm, b, key)
    case OfMonth(_) => exists month, i: nat :: month in months && i >= 1 && PartKeys(nm, month)(i) == key
  }

  /** Every name in a tree is one of its folder, or a part of a month. */
  ghost predicate Sourced(nm: Naming, t: Tree, refs: set<Ref>, months: set<string>) {
    forall at, key {:trigger t.dirs[at].used[key]} :: at in t.dirs && key in t.dirs[at].used ==>
      KeySourced(nm, t.dirs[at].used[key], key, refs, months)
  }

  lemma EnterSourced(nm: Naming, t: Tree, at: seq<string>, ref: Ref, refs: set<Ref>, months: set<string>)
    requires Sourced(nm, t, refs, months) && at in t.dirs && ref in refs
    ensures Sourced(nm, Enter(nm, t, at, ref), refs, months)
  {
    FolderNameFree(nm, t.dirs[at].used, ref);
    var key0 := nm.fold(FolderName(nm, t.dirs[at].used, ref));
    hide FolderName;
    assert CandidateKey(nm, ref, key0);
    hide CandidateKey;
    assert KeySourced(nm, OfFolder(ref.id), key0, refs, months);
    hide KeySourced;
    var t' := Enter(nm, t, at, ref);
    forall x, key | x in t'.dirs && key in t'.dirs[x].used ensures KeySourced(nm, t'.dirs[x].used[key], key, refs, months) {
      if x == at && key == key0 {
        assert at + [ref.id] !in t.dirs ==> t'.dirs[x].used[key] == OfFolder(ref.id);
      }
    }
  }

  lemma {:induction false} DescendSourced(nm: Naming, t: Tree, home: seq<Ref>, refs: set<Ref>, months: set<string>)
    requires [] in t.dirs && Sourced(nm, t, refs, months) && forall k :: 0 <= k < |home| ==> home[k] in refs
    ensures Sourced(nm, Descend(nm, t, home), refs, months)
  {
    if home != [] {
      hide Sourced;
      var front := home[..|home| - 1];
      DescendSourced(nm, t, front, refs, months);
      EnterSourced(nm, Descend(nm, t, front), Ids(front), home[|home| - 1], refs, months);
    }
  }

  lemma MonthSourced(nm: Naming, t: Tree, at: seq<string>, month: string, files: nat, refs: set<Ref>, months: set<string>)
    requires Sourced(nm, t, refs, months) && at in t.dirs && month in months
    ensures Sourced(nm, MonthTree(nm, t, at, month, files), refs, months)
  {
    var p := NextPart(nm, t, at, month);
    assert p.idx >= 1 && PartKeys(nm, month)(p.idx) == nm.fold(p.name);
    hide NextPart;
    assert KeySourced(nm, OfMonth(p.name), nm.fold(p.name), refs, months);
    hide KeySourced;
  }

  lemma PlaceSourced(nm: Naming, preserve: bool, t: Tree, m: Message, refs: set<Ref>, months: set<string>)
    requires [] in t.dirs && Sourced(nm, t, refs, months) && Covered([m], refs, months)
    ensures Sourced(nm, PlaceTree(nm, preserve, t, m), refs, months)
  {
    var home := Home(preserve, m);
    assert [m][0] == m;
    DescendSourced(nm, t, home, refs, months);
    MonthSourced(nm, Descend(nm, t, home), Ids(home), m.month, m.files, refs, months);
    hide Descend, MonthTree, KeySourced;
  }

  /** With such a hash there is a free name for every new folder. */
  lemma HashIsFree(nm: Naming, t: Tree, at: seq<string>, ref: Ref, refs: set<Ref>, months: set<string>)
    requires Inv(nm, t) && Sourced(nm, t, refs, months) && AllHashesTell(nm, refs, months) && ref in refs
    ensures FreeAt(nm, t, at, ref)
  {
    if at in t.dirs && at + [ref.id] !in t.dirs {
      var key := nm.fold(nm.rung(ref, 40));
      assert RUNGS[4] == 40;
      assert HashTells(nm, refs, months, ref);
      assert key in t.dirs[at].used ==> KeySourced(nm, t.dirs[at].used[key], key, refs, months);
      assert key in t.dirs[at].used ==> KeyOk(nm, t, at, key);
    }
  }

  lemma {:induction false} HashesFreeDown(nm: Naming, t: Tree, home: seq<Ref>, refs: set<Ref>, months: set<string>)
    requires Inv(nm, t) && Sourced(nm, t, refs, months) && AllHashesTell(nm, refs, months)
    requires forall k :: 0 <= k < |home| ==> home[k] in refs && RefPlain(nm, home[k])
    ensures FreeDown(nm, t, home)
  {
    if home != [] {
      assert [] in t.dirs;
      hide Inv, AllHashesTell, Sourced, FreeAt;
      var front := home[..|home| - 1];
      HashesFreeDown(nm, t, front, refs, months);
      DescendKeeps(nm, t, front);
      DescendSourced(nm, t, front, refs, months);
      HashIsFree(nm, Descend(nm, t, front), Ids(front), home[|home| - 1], refs, months);
    }
  }

  /** One more message, whose folders are told, finds a name for every folder it makes. */
  lemma HashesStep(nm: Naming, preserve: bool, t: Tree, m: Message, refs: set<Ref>, months: set<string>)
    requires Inv(nm, t) && Sourced(nm, t, refs, months) && AllHashesTell(nm, refs, months) && Covered([m], refs, months)
    requires [] in t.dirs && forall k :: 0 <= k < |m.folder| ==> RefPlain(nm, m.folder[k])
    ensures FreeDown(nm, t, Home(preserve, m)) && Sourced(nm, PlaceTree(nm, preserve, t, m), refs, months)
  {
    hide Inv, Sourced, AllHashesTell, FreeDown, PlaceTree;
    assert [m][0] == m;
    PlaceSourced(nm, preserve, t, m, refs, months);
    HashesFreeDown(nm, t, Home(preserve, m), refs, months);
  }

  /** What is assumed of messages, of the last of them and those before. */
  lemma LastAssumed(nm: Naming, ms: seq<Message>, refs: set<Ref>, months: set<string>)
    requires ms != [] && Told(nm, ms) && Sized(ms) && Covered(ms, refs, months)
    ensures var front, m := ms[..|ms| - 1], ms[|ms| - 1];
      && Told(nm, front) && Sized(front) && Covered(front, refs, months) && Covered([m], refs, months)
      && forall k :: 0 <= k < |m.folder| ==> RefPlain(nm, m.folder[k])
  {
    hide MonthTold, RefPlain;
  }

  lemma OneMoreFree(nm: Naming, preserve: bool, front: seq<Message>, m: Message)
    ensures Run(nm, preserve, front + [m]) == PlaceTree(nm, preserve, Run(nm, preserve, front), m)
    ensures FoldersFree(nm, preserve, front + [m])
      <==> FoldersFree(nm, preserve, front) && FreeDown(nm, Run(nm, preserve, front), Home(preserve, m))
  {
    assert (front + [m])[..|front|] == front;
  }

  lemma RunInv(nm: Naming, preserve: bool, ms: seq<Message>)
    requires Told(nm, ms) && Sized(ms) && FoldersFree(nm, preserve, ms)
    ensures Inv(nm, Run(nm, preserve, ms)) && [] in Run(nm, preserve, ms).dirs
  {
    RunKeeps(nm, preserve, ms);
    hide Run, Inv, FoldersFree, Told;
  }

  /** So no folder goes without a name where the hashes of the folders' ids are told apart from the names
      in the messages: no other folder's name, and no month, spells one out. */
  lemma {:induction false} HashesSuffice(nm: Naming, preserve: bool, ms: seq<Message>, refs: set<Ref>, months: set<string>)
    requires Told(nm, ms) && Sized(ms) && Covered(ms, refs, months) && AllHashesTell(nm, refs, months)
    ensures FoldersFree(nm, preserve, ms) && Sourced(nm, Run(nm, preserve, ms), refs, months)
  {
    if ms != [] {
      hide *;
      var front, m := ms[..|ms| - 1], ms[|ms| - 1];
      assert ms == front + [m];
      LastAssumed(nm, ms, refs, months);
      HashesSuffice(nm, preserve, front, refs, months);
      RunInv(nm, preserve, front);
      HashesStep(nm, preserve, Run(nm, preserve, front), m, refs, months);
      OneMoreFree(nm, preserve, front, m);
    }
  }
}
