/** Folders that do merge: beside a folder, siblings named as the folder would be with 8, 12, 16, 24 and 40
    digits of its hash. Folding plays no part in it, so names fold to themselves here. */
module NamerClash {
  import opened FreeNumber
  import opened Namer
  import opened Text

  const LATE_ID := "x"
  const MONTH := "2026-03"
  const SIBLING_IDS: seq<string> := ["0", "1", "2", "3", "4", "5"]

  /** The names of folders as they are, a rung a beginning of their ids' hash, months' parts numbered. */
  function PlainNaming(hash: string -> string): Naming {
    Naming((ref: Ref) => ref.name,
           (ref: Ref, h: nat) => ref.name + "~" + (if h <= |hash(ref.id)| then hash(ref.id)[..h] else hash(ref.id)),
           PartName,
           name => name)
  }

  /** The siblings' names, the late folder's own among them. */
  function SiblingName(hash: string -> string, k: nat): (r: string)
    requires k < 6 && |hash(LATE_ID)| == 40
    ensures |r| == if k == 0 then 5 else 6 + RUNGS[k - 1]
  {
    if k == 0 then "Inbox" else "Inbox~" + hash(LATE_ID)[..RUNGS[k - 1]]
  }

  function Sibling(hash: string -> string, k: nat): Message
    requires k < 6 && |hash(LATE_ID)| == 40
  {
    Message([Ref(SIBLING_IDS[k], SiblingName(hash, k))], MONTH, 600, "", "")
  }

  function Siblings(hash: string -> string, n: nat): (r: seq<Message>)
    requires n <= 6 && |hash(LATE_ID)| == 40
    ensures |r| == n && forall k :: 0 <= k < n ==> r[k] == Sibling(hash, k)
  {
    if n == 0 then [] else Siblings(hash, n - 1) + [Sibling(hash, n - 1)]
  }

  function Late(): Message { Message([Ref(LATE_ID, "Inbox")], MONTH, 600, "", "") }

  /** The tree after the first so many siblings: one folder each, under its own name. */
  ghost predicate After(t: Tree, hash: string -> string, n: nat)
    requires n <= 6 && |hash(LATE_ID)| == 40
  {
    && [] in t.dirs && t.dirs[[]].rel == ["messages"]
    && (forall at :: at in t.dirs ==> at == [] || exists k :: 0 <= k < n && at == [SIBLING_IDS[k]])
    && (forall k :: 0 <= k < n ==> [SIBLING_IDS[k]] in t.dirs)
    && (forall key :: key in t.dirs[[]].used <==> exists k :: 0 <= k < n && key == SiblingName(hash, k))
  }

  lemma NamesDiffer(hash: string -> string, j: nat, k: nat)
    requires j < k < 6 && |hash(LATE_ID)| == 40
    ensures SiblingName(hash, j) != SiblingName(hash, k) && SIBLING_IDS[j] != SIBLING_IDS[k]
  {
    assert SIBLING_IDS[j][0] != SIBLING_IDS[k][0];
  }

  /** A message of a new folder goes to the month's first part there. */
  lemma NewFolder(nm: Naming, t: Tree, m: Message, name: string)
    requires [] in t.dirs && t.dirs[[]].rel == ["messages"] && |m.folder| == 1 && [m.folder[0].id] !in t.dirs
    requires name == FolderName(nm, t.dirs[[]].used, m.folder[0])
    ensures var t' := PlaceTree(nm, true, t, m);
      && PlaceDir(nm, true, t, m).dir == ["messages", name, nm.part(m.month, 1)]
      && t'.dirs.Keys == t.dirs.Keys + {[m.folder[0].id]} && t'.dirs[[]].rel == ["messages"]
      && t'.dirs[[]].used.Keys == t.dirs[[]].used.Keys + {nm.fold(name)}
  {
    var ref := m.folder[0];
    var refs := Home(true, m);
    hide FolderName;
    assert refs[..0] == [] && Ids([]) == [] && [] + [ref.id] == [ref.id];
    assert Ids(refs) == [ref.id];
    var t1 := Descend(nm, t, refs);
    assert Descend(nm, t, []) == t;
    assert t1 == Enter(nm, t, [], ref);
    var d := t1.dirs[[ref.id]];
    assert d == Dir(["messages"] + [name], map[], map[]);
    assert FirstFree(PartKeys(nm, m.month), {}, 1) == 1;
    assert NextPart(nm, t1, [ref.id], m.month) == Part(1, nm.part(m.month, 1));
    hide NextPart, FirstFree;
  }

  lemma SiblingPlaced(hash: string -> string, t: Tree, n: nat)
    requires n < 6 && |hash(LATE_ID)| == 40 && After(t, hash, n)
    ensures var nm, m := PlainNaming(hash), Sibling(hash, n);
      After(PlaceTree(nm, true, t, m), hash, n + 1)
      && PlaceDir(nm, true, t, m).dir == ["messages", SiblingName(hash, n), MONTH]
  {
    var nm, m := PlainNaming(hash), Sibling(hash, n);
    forall k | 0 <= k < n ensures SiblingName(hash, k) != SiblingName(hash, n) && SIBLING_IDS[k] != SIBLING_IDS[n] {
      NamesDiffer(hash, k, n);
    }
    hide SiblingName;
    assert FolderName(nm, t.dirs[[]].used, m.folder[0]) == SiblingName(hash, n);
    NewFolder(nm, t, m, SiblingName(hash, n));
    hide PlaceTree, PlaceDir, FolderName;
  }

  lemma {:induction false} SiblingsPlaced(hash: string -> string, n: nat)
    requires n <= 6 && |hash(LATE_ID)| == 40
    ensures After(Run(PlainNaming(hash), true, Siblings(hash, n)), hash, n)
    ensures n > 0 ==>
              PlaceDir(PlainNaming(hash), true, Run(PlainNaming(hash), true, Siblings(hash, n - 1)), Sibling(hash, n - 1)).dir
              == ["messages", SiblingName(hash, n - 1), MONTH]
  {
    if n > 0 {
      SiblingsPlaced(hash, n - 1);
      var ms := Siblings(hash, n);
      assert ms[..n - 1] == Siblings(hash, n - 1);
      SiblingPlaced(hash, Run(PlainNaming(hash), true, Siblings(hash, n - 1)), n - 1);
      hide After, PlaceTree, PlaceDir;
    } else {
      assert Siblings(hash, 0) == [];
    }
  }

  /** Where every name and rung is taken the last rung is used all the same. */
  lemma {:induction false} LadderLast(nm: Naming, used: map<string, Owner>, ref: Ref, name: string, rungs: seq<nat>)
    requires nm.fold(name) in used && rungs != []
    requires forall i :: 0 <= i < |rungs| ==> nm.fold(nm.rung(ref, rungs[i])) in used
    ensures Ladder(nm, used, ref, name, rungs) == nm.rung(ref, rungs[|rungs| - 1])
    decreases |rungs|
  {
    if |rungs| > 1 {
      LadderLast(nm, used, ref, nm.rung(ref, rungs[0]), rungs[1..]);
    }
  }

  lemma RungIsSibling(hash: string -> string, i: nat)
    requires i < 5 && |hash(LATE_ID)| == 40
    ensures PlainNaming(hash).rung(Ref(LATE_ID, "Inbox"), RUNGS[i]) == SiblingName(hash, i + 1)
  {
    assert "Inbox" + "~" == "Inbox~";
  }

  lemma LateTaken(hash: string -> string, t: Tree)
    requires |hash(LATE_ID)| == 40 && After(t, hash, 6)
    ensures var nm, ref, used := PlainNaming(hash), Ref(LATE_ID, "Inbox"), t.dirs[[]].used;
      && nm.fold(nm.first(ref)) in used && (forall i :: 0 <= i < 5 ==> nm.fold(nm.rung(ref, RUNGS[i])) in used)
      && nm.rung(ref, RUNGS[4]) == SiblingName(hash, 5) && [LATE_ID] !in t.dirs
  {
    var nm, ref, used := PlainNaming(hash), Ref(LATE_ID, "Inbox"), t.dirs[[]].used;
    forall i | 0 <= i < 5 ensures nm.fold(nm.rung(ref, RUNGS[i])) in used {
      RungIsSibling(hash, i);
    }
    RungIsSibling(hash, 4);
    assert SiblingName(hash, 0) == "Inbox";
    hide SiblingName;
    forall k | 0 <= k < 6 ensures [LATE_ID] != [SIBLING_IDS[k]] {
      assert LATE_ID[0] != SIBLING_IDS[k][0];
    }
  }

  lemma LatePlaced(hash: string -> string, t: Tree)
    requires |hash(LATE_ID)| == 40 && After(t, hash, 6)
    ensures !FreeDown(PlainNaming(hash), t, Home(true, Late()))
    ensures PlaceDir(PlainNaming(hash), true, t, Late()).dir == ["messages", SiblingName(hash, 5), MONTH]
  {
    var nm, ref := PlainNaming(hash), Ref(LATE_ID, "Inbox");
    assert nm.part(MONTH, 1) == MONTH && Home(true, Late()) == [ref] && Late().month == MONTH;
    assert [] in t.dirs && t.dirs[[]].rel == ["messages"];
    LateTaken(hash, t);
    hide After, SiblingName, PlainNaming, PlaceDir, PlaceTree, Ladder, FreeDown;
    LadderLast(nm, t.dirs[[]].used, ref, nm.first(ref), RUNGS);
    NewFolder(nm, t, Late(), SiblingName(hash, 5));
    LateHasNone(nm, t, ref);
  }

  lemma LateHasNone(nm: Naming, t: Tree, ref: Ref)
    requires [] in t.dirs && [ref.id] !in t.dirs && nm.fold(nm.first(ref)) in t.dirs[[]].used
    requires forall i :: 0 <= i < 5 ==> nm.fold(nm.rung(ref, RUNGS[i])) in t.dirs[[]].used
    ensures !FreeDown(nm, t, [ref])
  {
    assert [ref][..0] == [] && Ids([]) == [] && [] + [ref.id] == [ref.id];
    forall h | h in RUNGS ensures nm.fold(nm.rung(ref, h)) in t.dirs[[]].used {
      var i :| 0 <= i < 5 && RUNGS[i] == h;
    }
    assert !FreeAt(nm, t, [], ref);
  }

  lemma MonthsTold(hash: string -> string)
    ensures MonthTold(PlainNaming(hash), MONTH)
  {
    var nm := PlainNaming(hash);
    forall i: nat, j: nat | i >= 1 && j >= 1 && PartKeys(nm, MONTH)(i) == PartKeys(nm, MONTH)(j) ensures i == j {
      PartTells(i, j);
    }
    forall i: nat | i >= 1 ensures '/' !in PartName(MONTH, i) {
      forall k | 0 <= k < |Decimal(i)| ensures Decimal(i)[k] != '/' {
        assert IsDigit(Decimal(i)[k]);
      }
    }
  }

  lemma NamePlain(hash: string -> string, ref: Ref)
    requires '/' !in ref.name && '/' !in hash(ref.id)
    ensures RefPlain(PlainNaming(hash), ref)
  {
  }

  lemma NamesTold(hash: string -> string)
    requires |hash(LATE_ID)| == 40 && forall id :: '/' !in hash(id)
    ensures Told(PlainNaming(hash), Siblings(hash, 6) + [Late()])
  {
    var nm, ms := PlainNaming(hash), Siblings(hash, 6) + [Late()];
    MonthsTold(hash);
    forall i | 0 <= i < |ms| ensures ms[i].month == MONTH && |ms[i].folder| == 1 && RefPlain(nm, ms[i].folder[0]) {
      NamePlain(hash, ms[i].folder[0]);
    }
    hide MonthTold, RefPlain, Siblings;
  }

  lemma PartTells(i: nat, j: nat)
    requires i >= 1 && j >= 1 && PartName(MONTH, i) == PartName(MONTH, j)
    ensures i == j
  {
    var a, b := PartName(MONTH, i), PartName(MONTH, j);
    assert i > 1 ==> |a| > 8 && a[8..] == Decimal(i);
    assert j > 1 ==> |b| > 8 && b[8..] == Decimal(j);
    if i > 1 && j > 1 {
      DecimalTells(i, j);
    }
  }

  /** With seven messages of 600 files each in seven folders of one parent, six of them named as the seventh
      would be: names are told and no message passes the bound, and yet two folders are one directory, which
      is given 1,200 files. */
  lemma FoldersMerge(hash: string -> string)
    requires |hash(LATE_ID)| == 40 && forall id :: '/' !in hash(id)
    ensures var nm, ms := PlainNaming(hash), Siblings(hash, 6) + [Late()];
      var places := Places(nm, true, ms);
      && Told(nm, ms) && Sized(ms) && !FoldersFree(nm, true, ms)
      && Ids(ms[5].folder) != Ids(ms[6].folder) && places[5].dir == places[6].dir
      && FilesIn(places, places[6].dir) > FILES_PER_DIR
  {
    var nm, front, late := PlainNaming(hash), Siblings(hash, 6), Late();
    NamesTold(hash);
    SiblingsPlaced(hash, 6);
    LatePlaced(hash, Run(nm, true, front));
    assert Siblings(hash, 6) == Siblings(hash, 5) + [Sibling(hash, 5)];
    SevenAre(hash, front + [late]);
    hide *;
    NotFree(nm, front, late);
    TwoLast(nm, Siblings(hash, 5), Sibling(hash, 5), late);
  }

  lemma SevenAre(hash: string -> string, ms: seq<Message>)
    requires |hash(LATE_ID)| == 40 && ms == Siblings(hash, 6) + [Late()]
    ensures |ms| == 7 && Sized(ms) && Ids(ms[5].folder) != Ids(ms[6].folder)
    ensures Sibling(hash, 5).files == Late().files == 600 && FILES_PER_DIR == 1000
  {
    assert Ids(ms[5].folder)[0] == SIBLING_IDS[5] == "5" && Ids(ms[6].folder)[0] == LATE_ID;
  }

  lemma NotFree(nm: Naming, front: seq<Message>, late: Message)
    requires !FreeDown(nm, Run(nm, true, front), Home(true, late))
    ensures !FoldersFree(nm, true, front + [late])
  {
    assert (front + [late])[..|front|] == front;
  }

  lemma TwoLast(nm: Naming, five: seq<Message>, m: Message, n: Message)
    requires |five| == 5
    ensures var six := five + [m];
      var p, q := PlaceDir(nm, true, Run(nm, true, five), m).dir, PlaceDir(nm, true, Run(nm, true, six), n).dir;
      var places := Places(nm, true, six + [n]);
      && places[5].dir == p && places[6].dir == q
      && (p == q ==> FilesIn(places, q) >= m.files + n.files)
  {
    var six := five + [m];
    var a, b := Places(nm, true, five), Places(nm, true, six);
    PlaceFiles(nm, true, Run(nm, true, five), m);
    PlaceFiles(nm, true, Run(nm, true, six), n);
    hide PlaceDir, Run;
    var p, q := PlaceDir(nm, true, Run(nm, true, five), m), PlaceDir(nm, true, Run(nm, true, six), n);
    assert six[..5] == five && (six + [n])[..6] == six;
    assert b == a + [p] && Places(nm, true, six + [n]) == b + [q];
    assert (a + [p])[..5] == a && (b + [q])[..6] == b;
  }
}
