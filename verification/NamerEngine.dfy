/** The namer as it runs: directories, counts and stems updated by every placement. */
module NamerEngine {
  import opened FreeNumber
  import opened Namer

  const PATH_BUDGET := 250
  const NAME_MAX := 255

  // ---- stems

  /** `stem` is the file stem with that many runes of subject and digits of digest, `units` the length of
      the absolute path it makes, `bytes` that of the file name, and `digest` stands for its fold key in
      its directory. */
  datatype StemNaming = StemNaming(
    stem: (Message, nat, nat) -> string,
    units: (seq<string>, string) -> nat,
    bytes: string -> nat,
    digest: (seq<string>, string) -> nat)

  predicate SlugFits(sn: StemNaming, m: Message, dir: seq<string>, slug: nat) {
    sn.units(dir, sn.stem(m, slug, 8)) <= PATH_BUDGET && sn.bytes(sn.stem(m, slug, 40)) <= NAME_MAX
  }

  /** The longest of 60, 24 and 0 runes of subject that fits; 0 is not asked. */
  function SlugFor(sn: StemNaming, m: Message, dir: seq<string>): nat {
    if SlugFits(sn, m, dir, 60) then 60 else if SlugFits(sn, m, dir, 24) then 24 else 0
  }

  /** The first rung whose stem is free, the last one when none is. */
  function StemFrom(sn: StemNaming, stems: set<nat>, m: Message, dir: seq<string>, slug: nat, rungs: seq<nat>): string
    requires rungs != []
    decreases |rungs|
  {
    var stem := sn.stem(m, slug, rungs[0]);
    if sn.digest(dir, stem) !in stems || |rungs| == 1 then stem else StemFrom(sn, stems, m, dir, slug, rungs[1..])
  }

  function StemFor(sn: StemNaming, stems: set<nat>, m: Message, dir: seq<string>): string {
    StemFrom(sn, stems, m, dir, SlugFor(sn, m, dir), RUNGS)
  }

  lemma {:induction false} StemFromIs(sn: StemNaming, stems: set<nat>, m: Message, dir: seq<string>, slug: nat, rungs: seq<nat>)
    requires rungs != []
    ensures var r := StemFrom(sn, stems, m, dir, slug, rungs);
      && (exists h :: h in rungs && r == sn.stem(m, slug, h))
      && (sn.digest(dir, r) !in stems <==> exists h :: h in rungs && sn.digest(dir, sn.stem(m, slug, h)) !in stems)
    decreases |rungs|
  {
    assert rungs == [rungs[0]] + rungs[1..];
    assert rungs[0] in rungs;
    if |rungs| > 1 && sn.digest(dir, sn.stem(m, slug, rungs[0])) in stems {
      StemFromIs(sn, stems, m, dir, slug, rungs[1..]);
      forall h | h in rungs[1..] ensures h in rungs {
      }
    }
  }

  /** More digits never make a shorter name. */
  ghost predicate LongestLast(sn: StemNaming) {
    forall m, slug, h :: h in RUNGS ==> sn.bytes(sn.stem(m, slug, h)) <= sn.bytes(sn.stem(m, slug, 40))
  }

  /** The rung is the first whose stem is new to the directory, or the last when none is. */
  ghost predicate FirstNew(sn: StemNaming, stems: set<nat>, m: Message, dir: seq<string>, slug: nat, k: nat) {
    && k < |RUNGS| && (forall j :: 0 <= j < k ==> sn.digest(dir, sn.stem(m, slug, RUNGS[j])) in stems)
    && (k == |RUNGS| - 1 || sn.digest(dir, sn.stem(m, slug, RUNGS[k])) !in stems)
  }

  lemma {:induction false} StemFromFirst(sn: StemNaming, stems: set<nat>, m: Message, dir: seq<string>, slug: nat, i: nat)
    returns (k: nat)
    requires i < |RUNGS| && forall j :: 0 <= j < i ==> sn.digest(dir, sn.stem(m, slug, RUNGS[j])) in stems
    ensures FirstNew(sn, stems, m, dir, slug, k) && StemFrom(sn, stems, m, dir, slug, RUNGS[i..]) == sn.stem(m, slug, RUNGS[k])
    decreases |RUNGS| - i
  {
    assert RUNGS[i..][0] == RUNGS[i] && RUNGS[i..][1..] == RUNGS[i + 1..];
    if sn.digest(dir, sn.stem(m, slug, RUNGS[i])) !in stems || i == |RUNGS| - 1 {
      k := i;
    } else {
      k := StemFromFirst(sn, stems, m, dir, slug, i + 1);
    }
  }

  /** The name keeps the longest of 60, 24 and no runes of its subject that fits the file system, whatever digits
      de-duplication gives it, and has the first digits that make it new to its directory; it is new there exactly
      when one of the five rungs is. */
  lemma StemFits(sn: StemNaming, stems: set<nat>, m: Message, dir: seq<string>)
    requires LongestLast(sn)
    ensures var r, slug := StemFor(sn, stems, m, dir), SlugFor(sn, m, dir);
      && (slug > 0 ==> sn.bytes(r) <= NAME_MAX && sn.units(dir, sn.stem(m, slug, 8)) <= PATH_BUDGET)
      && slug in {60, 24, 0} && (slug < 60 ==> !SlugFits(sn, m, dir, 60)) && (slug < 24 ==> !SlugFits(sn, m, dir, 24))
      && (exists k: nat :: FirstNew(sn, stems, m, dir, slug, k) && r == sn.stem(m, slug, RUNGS[k]))
      && (sn.digest(dir, r) !in stems <==> exists h :: h in RUNGS && sn.digest(dir, sn.stem(m, slug, h)) !in stems)
  {
    StemFromIs(sn, stems, m, dir, SlugFor(sn, m, dir), RUNGS);
    var k := StemFromFirst(sn, stems, m, dir, SlugFor(sn, m, dir), 0);
    assert RUNGS[0..] == RUNGS;
    hide StemFrom;
  }

  // ---- the namer

  class Placer {
    var dirs: map<seq<string>, Dir>
    var counts: map<seq<string>, nat>
    var stems: set<nat>

    function View(): Tree
      reads this
    {
      Tree(dirs, counts)
    }

    constructor ()
      ensures View() == Empty() && stems == {}
    {
      dirs, counts, stems := map[[] := Dir(["messages"], map[], map[])], map[], {};
    }

    /** The name of a new folder, by the ladder of hash lengths. */
    static method PickName(nm: Naming, used: map<string, Owner>, ref: Ref) returns (name: string)
      ensures name == FolderName(nm, used, ref)
    {
      name := nm.first(ref);
      var i := 0;
      while i < |RUNGS| && nm.fold(name) in used
        invariant i <= |RUNGS|
        invariant Ladder(nm, used, ref, name, RUNGS[i..]) == FolderName(nm, used, ref)
      {
        assert RUNGS[i..][1..] == RUNGS[i + 1..] && RUNGS[i..][0] == RUNGS[i];
        name := nm.rung(ref, RUNGS[i]);
        i := i + 1;
      }
    }

    /** folderDir. */
    method FolderDir(nm: Naming, refs: seq<Ref>) returns (at: seq<string>)
      requires [] in dirs
      modifies this`dirs
      ensures View() == Descend(nm, old(View()), refs) && at == Ids(refs)
    {
      hide FolderName;
      at := [];
      for i := 0 to |refs|
        invariant [] in dirs && View() == Descend(nm, old(View()), refs[..i])
        invariant at == Ids(refs[..i])
      {
        assert refs[..i + 1][..i] == refs[..i];
        var ref, d := refs[i], dirs[at];
        var child := at + [ref.id];
        if child !in dirs {
          var name := PickName(nm, d.used, ref);
          dirs := dirs[at := d.(used := d.used[nm.fold(name) := OfFolder(ref.id)])];
          dirs := dirs[child := Dir(d.rel + [name], map[], map[])];
        }
        at := child;
      }
      assert refs[..|refs|] == refs;
    }

    /** monthDir. */
    method MonthDir(nm: Naming, at: seq<string>, month: string, files: nat) returns (name: string)
      requires at in dirs && MonthTold(nm, month)
      modifies this`dirs
      ensures View() == MonthTree(nm, old(View()), at, month, files)
      ensures name == MonthName(nm, old(View()), at, month, files)
    {
      hide FirstFree;
      var d := dirs[at];
      if month in d.months {
        var path := d.rel + [d.months[month].name];
        if (if path in counts then counts[path] else 0) + files <= FILES_PER_DIR {
          return d.months[month].name;
        }
      }
      var idx := Search(PartKeys(nm, month), d.used.Keys, (if month in d.months then d.months[month].idx else 0) + 1);
      name := nm.part(month, idx);
      dirs := dirs[at := d.(used := d.used[nm.fold(name) := OfMonth(name)], months := d.months[month := Part(idx, name)])];
    }

    /** stem. */
    method Stem(sn: StemNaming, m: Message, dir: seq<string>) returns (stem: string)
      ensures stem == StemFor(sn, stems, m, dir)
    {
      var slug := 60;
      while slug != 0 && !SlugFits(sn, m, dir, slug)
        invariant slug == 60 || slug == 24 || slug == 0
        invariant slug < 60 ==> !SlugFits(sn, m, dir, 60)
        invariant slug < 24 ==> !SlugFits(sn, m, dir, 24)
        decreases slug
      {
        slug := if slug == 60 then 24 else 0;
      }
      stem := "";
      for i := 0 to |RUNGS|
        invariant i < |RUNGS| ==> StemFrom(sn, stems, m, dir, slug, RUNGS[i..]) == StemFor(sn, stems, m, dir)
        invariant i == |RUNGS| ==> stem == StemFor(sn, stems, m, dir)
      {
        assert RUNGS[i..][0] == RUNGS[i] && RUNGS[i..][1..] == RUNGS[i + 1..];
        stem := sn.stem(m, slug, RUNGS[i]);
        if sn.digest(dir, stem) !in stems {
          return;
        }
      }
    }

    /** place. */
    method Place(nm: Naming, sn: StemNaming, preserve: bool, m: Message) returns (dir: seq<string>, stem: string)
      requires [] in dirs && MonthTold(nm, m.month)
      modifies this
      ensures View() == PlaceTree(nm, preserve, old(View()), m) && dir == PlaceDir(nm, preserve, old(View()), m).dir
      ensures stem == StemFor(sn, old(stems), m, dir) && stems == old(stems) + {sn.digest(dir, stem)}
    {
      hide MonthTree;
      hide MonthName;
      hide Descend;
      hide StemFor;
      var at := FolderDir(nm, Home(preserve, m));
      var rel := dirs[at].rel;
      var name := MonthDir(nm, at, m.month, m.files);
      dir := rel + [name];
      stem := Stem(sn, m, dir);
      stems := stems + {sn.digest(dir, stem)};
      counts := counts[dir := (if dir in counts then counts[dir] else 0) + m.files];
    }
  }
}
