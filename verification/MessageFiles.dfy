/** The files of one message: written whole under temporary names, then given their own, or none of them
    left behind. The folder is a map from names to bytes. */
module MessageFiles {
  import opened Wrappers

  /** One part: the temporary name the folder gives it, its own name and the ones tried after it, its data,
      and where it fails; `stray` is what a failing copy had written. */
  datatype Part = Part(
    temp: string, names: seq<string>, data: string, stray: string,
    createFails: bool, copyFails: bool, syncFails: bool, closeFails: bool, placeFails: bool)

  datatype Rec = Rec(name: string, sha: string, size: nat)

  datatype Placing = Placed(name: string) | NotPlaced

  predicate FirstAt(names: seq<string>, taken: set<string>, k: nat) {
    k < |names| && names[k] !in taken && forall j :: 0 <= j < k ==> names[j] in taken
  }

  /** The first of the names that is not taken. */
  predicate FirstNotIn(names: seq<string>, taken: set<string>, name: string) {
    exists k :: 0 <= k < |names| && names[k] == name && FirstAt(names, taken, k)
  }

  class Folder {
    var files: map<string, string>

    /** A new empty file, never one that is there. */
    method Create(name: string, fails: bool) returns (ok: bool)
      modifies this
      ensures ok == (!fails && name !in old(files))
      ensures files == if ok then old(files)[name := ""] else old(files)
    {
      ok := !fails && name !in files;
      if ok {
        files := files[name := ""];
      }
    }

    method Write(name: string, data: string)
      requires name in files
      modifies this
      ensures files == old(files)[name := data]
    {
      files := files[name := data];
    }

    /** A name that is not there is nothing to remove. */
    method Remove(name: string)
      modifies this
      ensures files == old(files) - {name}
    {
      files := files - {name};
    }

    /** placeFinalAs: the first of the names that is free, none replaced. */
    method Place(temp: string, names: seq<string>, fails: bool) returns (r: Placing)
      requires temp in files
      modifies this
      ensures r.NotPlaced? <==> fails || forall i :: 0 <= i < |names| ==> names[i] in old(files)
      ensures r.NotPlaced? ==> files == old(files)
      ensures r.Placed? ==> FirstNotIn(names, old(files).Keys, r.name)
                            && files == (old(files) - {temp})[r.name := old(files)[temp]]
    {
      if fails {
        return NotPlaced;
      }
      for k := 0 to |names|
        invariant files == old(files) && forall i :: 0 <= i < k ==> names[i] in files
      {
        if names[k] !in files {
          files := (files - {temp})[names[k] := files[temp]];
          assert FirstAt(names, old(files).Keys, k);
          return Placed(names[k]);
        }
      }
      return NotPlaced;
    }
  }

  // ---- what the folder holds while a message is written

  /** The folder's own files, the names the first parts were given, and the temps of those still to place. */
  ghost predicate Holds(files: map<string, string>, own: map<string, string>, parts: seq<Part>, placed: seq<string>, made: nat)
    requires |placed| <= made <= |parts|
  {
    && (forall n :: n in files <==> n in own || n in placed || TempOf(parts, n, |placed|, made))
    && (forall n :: n in own ==> files[n] == own[n])
    && (forall k :: 0 <= k < |placed| ==> placed[k] in files && files[placed[k]] == parts[k].data)
    && (forall k :: |placed| <= k < made ==> parts[k].temp in files && files[parts[k].temp] == parts[k].data)
  }

  ghost predicate TempOf(parts: seq<Part>, n: string, lo: nat, hi: nat)
    requires hi <= |parts|
  {
    exists k :: lo <= k < hi && parts[k].temp == n
  }

  /** No two of them share a name, nor one with the folder's own. */
  ghost predicate Apart(own: map<string, string>, parts: seq<Part>, placed: seq<string>, made: nat)
    requires |placed| <= made <= |parts|
  {
    && (forall k :: 0 <= k < |placed| ==> placed[k] !in own)
    && (forall j, k :: 0 <= j < k < |placed| ==> placed[j] != placed[k])
    && (forall k :: |placed| <= k < made ==> parts[k].temp !in own && parts[k].temp !in placed)
    && (forall j, k :: |placed| <= j < k < made ==> parts[j].temp != parts[k].temp)
  }

  lemma NothingYet(own: map<string, string>, parts: seq<Part>)
    ensures Holds(own, own, parts, [], 0) && Apart(own, parts, [], 0)
  {
  }

  lemma TempNames(parts: seq<Part>, made: nat, n: string)
    requires made < |parts|
    ensures TempOf(parts, n, 0, made + 1) <==> TempOf(parts, n, 0, made) || n == parts[made].temp
  {
    if TempOf(parts, n, 0, made) {
      var k :| 0 <= k < made && parts[k].temp == n;
      assert 0 <= k < made + 1;
    }
  }

  lemma TempMade(files: map<string, string>, own: map<string, string>, parts: seq<Part>, made: nat)
    requires made < |parts| && Holds(files, own, parts, [], made) && Apart(own, parts, [], made)
    requires parts[made].temp !in files
    ensures Holds(files[parts[made].temp := parts[made].data], own, parts, [], made + 1) && Apart(own, parts, [], made + 1)
  {
    var files' := files[parts[made].temp := parts[made].data];
    forall n ensures n in files' <==> n in own || TempOf(parts, n, 0, made + 1) {
      TempNames(parts, made, n);
    }
    hide TempOf;
    forall k | 0 <= k < made ensures parts[k].temp != parts[made].temp {
      assert parts[k].temp in files;
    }
  }

  lemma PlacedApart(files: map<string, string>, own: map<string, string>, parts: seq<Part>, placed: seq<string>, name: string)
    requires |placed| < |parts| && Holds(files, own, parts, placed, |parts|) && Apart(own, parts, placed, |parts|)
    requires name !in files
    ensures parts[|placed|].temp in files && Apart(own, parts, placed + [name], |parts|)
    ensures name !in placed && name !in own && forall k :: |placed| <= k < |parts| ==> parts[k].temp != name
  {
  }

  lemma PlacedNames(files: map<string, string>, own: map<string, string>, parts: seq<Part>, placed: seq<string>, name: string, n: string)
    requires |placed| < |parts| && Holds(files, own, parts, placed, |parts|) && Apart(own, parts, placed, |parts|)
    ensures n in files && n != parts[|placed|].temp <==>
      n in own || n in placed || TempOf(parts, n, |placed| + 1, |parts|)
  {
    var i := |placed|;
    if TempOf(parts, n, i, |parts|) && n != parts[i].temp {
      var k :| i <= k < |parts| && parts[k].temp == n;
      assert i + 1 <= k < |parts|;
    }
    if TempOf(parts, n, i + 1, |parts|) {
      var k :| i + 1 <= k < |parts| && parts[k].temp == n;
      assert parts[i].temp != parts[k].temp;
    }
  }

  lemma OnePlaced(files: map<string, string>, own: map<string, string>, parts: seq<Part>, placed: seq<string>, name: string)
    requires |placed| < |parts| && Holds(files, own, parts, placed, |parts|) && Apart(own, parts, placed, |parts|)
    requires name !in files
    ensures var temp := parts[|placed|].temp;
      temp in files
      && Holds((files - {temp})[name := files[temp]], own, parts, placed + [name], |parts|)
      && Apart(own, parts, placed + [name], |parts|)
  {
    var i := |placed|;
    var temp := parts[i].temp;
    PlacedApart(files, own, parts, placed, name);
    var files' := (files - {temp})[name := files[temp]];
    var placed' := placed + [name];
    forall n ensures n in files' <==> n in own || n in placed' || TempOf(parts, n, |placed'|, |parts|) {
      PlacedNames(files, own, parts, placed, name, n);
    }
    hide TempOf;
    forall k | 0 <= k < |placed'| ensures placed'[k] in files' && files'[placed'[k]] == parts[k].data {
      assert k < i ==> placed'[k] == placed[k];
    }
  }

  /** The removal of every temp made so far, some of them placed already. */
  function WithoutTemps(files: map<string, string>, parts: seq<Part>): map<string, string> {
    if parts == [] then files else WithoutTemps(files, parts[..|parts| - 1]) - {parts[|parts| - 1].temp}
  }

  function WithoutNames(files: map<string, string>, names: seq<string>): map<string, string> {
    if names == [] then files else WithoutNames(files, names[..|names| - 1]) - {names[|names| - 1]}
  }

  lemma {:induction false} WithoutTempsIs(files: map<string, string>, parts: seq<Part>)
    ensures var r := WithoutTemps(files, parts);
      forall n :: (n in r <==> n in files && !TempOf(parts, n, 0, |parts|)) && (n in r ==> r[n] == files[n])
  {
    if parts != [] {
      var front := parts[..|parts| - 1];
      WithoutTempsIs(files, front);
      forall n ensures TempOf(parts, n, 0, |parts|) <==> TempOf(front, n, 0, |front|) || n == parts[|parts| - 1].temp {
        if TempOf(front, n, 0, |front|) {
          var k :| 0 <= k < |front| && front[k].temp == n;
          assert parts[k].temp == n;
        }
        if TempOf(parts, n, 0, |parts|) {
          var k :| 0 <= k < |parts| && parts[k].temp == n;
          assert k < |front| ==> front[k].temp == n;
        }
      }
    }
  }

  lemma {:induction false} WithoutNamesIs(files: map<string, string>, names: seq<string>)
    ensures var r := WithoutNames(files, names);
      forall n :: (n in r <==> n in files && n !in names) && (n in r ==> r[n] == files[n])
  {
    if names != [] {
      WithoutNamesIs(files, names[..|names| - 1]);
      assert names == names[..|names| - 1] + [names[|names| - 1]];
    }
  }

  // ---- the size bound

  function SizeOf(parts: seq<Part>): nat {
    if parts == [] then 0 else SizeOf(parts[..|parts| - 1]) + |parts[|parts| - 1].data|
  }

  /** Whether a part's own bound lets it be copied: a bound of zero or less is none. */
  predicate Admits(remaining: int, size: nat) { remaining <= 0 || size <= remaining }

  ghost predicate AllAdmitted(parts: seq<Part>, maxBytes: int) {
    forall i :: 0 <= i < |parts| ==> Admits(maxBytes - SizeOf(parts[..i]), |parts[i].data|)
  }

  /** The parts before i take the bound to the last byte, and what follows is not empty. */
  ghost predicate UsedUpAt(parts: seq<Part>, maxBytes: int, i: nat)
    requires i <= |parts|
  {
    SizeOf(parts[..i]) == maxBytes && SizeOf(parts[..i]) < SizeOf(parts)
  }

  /** The total of a message that was written passes its bound exactly when some of its parts used the bound
      up to the last byte before others came: a remainder of zero is read as no bound. */
  lemma {:induction false} BoundHolds(parts: seq<Part>, maxBytes: int)
    requires maxBytes > 0 && AllAdmitted(parts, maxBytes)
    ensures SizeOf(parts) > maxBytes <==> exists i :: 0 <= i <= |parts| && UsedUpAt(parts, maxBytes, i)
  {
    if parts != [] && SizeOf(parts) > maxBytes {
      var front := parts[..|parts| - 1];
      forall i | 0 <= i < |front| ensures Admits(maxBytes - SizeOf(front[..i]), |front[i].data|) {
        assert front[..i] == parts[..i];
        assert Admits(maxBytes - SizeOf(parts[..i]), |parts[i].data|);
      }
      BoundHolds(front, maxBytes);
      assert Admits(maxBytes - SizeOf(parts[..|front|]), |parts[|front|].data|);
      if SizeOf(front) > maxBytes {
        var i :| 0 <= i <= |front| && UsedUpAt(front, maxBytes, i);
        assert front[..i] == parts[..i];
        assert UsedUpAt(parts, maxBytes, i);
      } else {
        assert UsedUpAt(parts, maxBytes, |front|);
      }
    }
  }

  /** A first part as large as the bound lets the second be of any size. */
  lemma BoundIsPassed(first: Part, second: Part)
    requires |first.data| > 0 && |second.data| > 0
    ensures AllAdmitted([first, second], |first.data|) && SizeOf([first, second]) > |first.data|
  {
    var parts := [first, second];
    assert parts[..1] == [first] && parts[..0] == [] && [first][..0] == [];
    assert SizeOf(parts[..1]) == |first.data|;
    forall i | 0 <= i < |parts| ensures Admits(|first.data| - SizeOf(parts[..i]), |parts[i].data|) {
      assert i == 0 || i == 1;
    }
  }

  // ---- writing

  predicate CopyGoes(p: Part, remaining: int) {
    !p.createFails && !p.copyFails && !p.syncFails && !p.closeFails && Admits(remaining, |p.data|)
  }

  function RecsOf(parts: seq<Part>, placed: seq<string>, sha: string -> string): (r: seq<Rec>)
    requires |placed| <= |parts|
    ensures |r| == |placed| && forall i :: 0 <= i < |r| ==> r[i] == Rec(placed[i], sha(parts[i].data), |parts[i].data|)
  {
    if placed == [] then []
    else
      var k := |placed| - 1;
      RecsOf(parts, placed[..k], sha) + [Rec(placed[k], sha(parts[k].data), |parts[k].data|)]
  }

  // ---- when a message is written

  /** Nothing of a part fails. */
  predicate NoFault(p: Part) { !p.createFails && !p.copyFails && !p.syncFails && !p.closeFails && !p.placeFails }

  ghost predicate NewTemps(own: map<string, string>, parts: seq<Part>) {
    && (forall i :: 0 <= i < |parts| ==> parts[i].temp !in own)
    && (forall i, j :: 0 <= i < j < |parts| ==> parts[i].temp != parts[j].temp)
  }

  /** Each name given is the first of its part's that the folder has not and no part before was given. */
  ghost predicate GivenFirst(own: map<string, string>, parts: seq<Part>, given: seq<string>) {
    && |given| <= |parts|
    && forall i {:trigger given[i]} :: 0 <= i < |given| ==> FirstNotIn(parts[i].names, own.Keys + Names(given[..i]), given[i])
  }

  function Names(given: seq<string>): (r: set<string>)
    ensures forall n :: n in r <==> n in given
  {
    set n | n in given
  }

  ghost predicate AllNamed(own: map<string, string>, parts: seq<Part>) {
    exists given :: |given| == |parts| && GivenFirst(own, parts, given)
  }

  /** The parts can all be written: none fails, each temp is a new one, the bound admits each, and each has a free
      name left when the parts before it took theirs. */
  ghost predicate Writable(own: map<string, string>, parts: seq<Part>, maxBytes: int) {
    && (forall i :: 0 <= i < |parts| ==> NoFault(parts[i]))
    && NewTemps(own, parts) && AllAdmitted(parts, maxBytes) && AllNamed(own, parts)
  }

  lemma FirstIsOne(names: seq<string>, taken: set<string>, a: string, b: string)
    requires FirstNotIn(names, taken, a) && FirstNotIn(names, taken, b)
    ensures a == b
  {
  }

  /** What is given first is determined. */
  lemma {:induction false} GivenIsOne(own: map<string, string>, parts: seq<Part>, a: seq<string>, b: seq<string>)
    requires GivenFirst(own, parts, a) && GivenFirst(own, parts, b) && |a| <= |b|
    ensures b[..|a|] == a
  {
    if a != [] {
      var n := |a| - 1;
      GivenPrefix(own, parts, a, n);
      GivenIsOne(own, parts, a[..n], b);
      assert b[..n] == a[..n];
      FirstIsOne(parts[n].names, own.Keys + Names(a[..n]), a[n], b[n]);
    }
  }

  lemma GivenPrefix(own: map<string, string>, parts: seq<Part>, given: seq<string>, n: nat)
    requires GivenFirst(own, parts, given) && n <= |given|
    ensures GivenFirst(own, parts, given[..n])
  {
    hide FirstNotIn;
    forall i | 0 <= i < n ensures FirstNotIn(parts[i].names, own.Keys + Names(given[..n][..i]), given[..n][i]) {
      assert given[..n][..i] == given[..i] && given[..n][i] == given[i];
    }
  }

  lemma GivenMore(own: map<string, string>, parts: seq<Part>, given: seq<string>, name: string)
    requires GivenFirst(own, parts, given) && |given| < |parts|
    requires FirstNotIn(parts[|given|].names, own.Keys + Names(given), name)
    ensures GivenFirst(own, parts, given + [name])
  {
    hide FirstNotIn;
    var more := given + [name];
    forall i | 0 <= i < |more| ensures FirstNotIn(parts[i].names, own.Keys + Names(more[..i]), more[i]) {
      assert more[..i] == given[..i];
    }
  }

  lemma NotFirst(names: seq<string>, taken: set<string>, name: string)
    requires forall n :: n in names ==> n in taken
    ensures !FirstNotIn(names, taken, name)
  {
  }

  /** No name is left for the next part: the parts cannot all be named. */
  lemma NoneLeft(own: map<string, string>, parts: seq<Part>, given: seq<string>)
    requires GivenFirst(own, parts, given) && |given| < |parts|
    requires forall n :: n in parts[|given|].names ==> n in own || n in given
    ensures !AllNamed(own, parts)
  {
    if all :| |all| == |parts| && GivenFirst(own, parts, all) {
      GivenIsOne(own, parts, given, all);
      var i := |given|;
      assert all[..i] == given;
      NotFirst(parts[i].names, own.Keys + Names(all[..i]), all[i]);
    }
  }

  /** While a message's parts are named, a name of a part is in the folder exactly when it is the folder's own or
      given. */
  lemma NamesHeld(files: map<string, string>, own: map<string, string>, parts: seq<Part>, placed: seq<string>, i: nat)
    requires |placed| <= |parts| && Holds(files, own, parts, placed, |parts|) && NamesNoTemps(parts) && i < |parts|
    ensures forall n :: n in parts[i].names ==> (n in files <==> n in own || n in placed)
  {
  }

  lemma FirstHeld(names: seq<string>, taken: set<string>, held: set<string>, name: string)
    requires forall n :: n in names ==> (n in taken <==> n in held)
    ensures FirstNotIn(names, taken, name) <==> FirstNotIn(names, held, name)
  {
    forall k | 0 <= k < |names| ensures FirstAt(names, taken, k) <==> FirstAt(names, held, k) {
    }
  }

  // ---- the methods

  /** What the folder holds when a message was written: its own files and the parts under their names. */
  ghost predicate Written(files: map<string, string>, own: map<string, string>, parts: seq<Part>, placed: seq<string>) {
    |placed| == |parts| && Holds(files, own, parts, placed, |parts|) && Apart(own, parts, placed, |parts|)
  }

  /** Every temp made is removed. */
  method Cleanup(folder: Folder, parts: seq<Part>)
    modifies folder
    ensures folder.files == WithoutTemps(old(folder.files), parts)
  {
    for i := 0 to |parts|
      invariant folder.files == WithoutTemps(old(folder.files), parts[..i])
    {
      assert parts[..i + 1][..i] == parts[..i];
      folder.Remove(parts[i].temp);
    }
    assert parts[..|parts|] == parts;
  }

  /** One part copied into its temp, synced and closed; a failing part may leave a temp. */
  method CopyPart(folder: Folder, p: Part, remaining: int) returns (made: bool, ok: bool)
    modifies folder
    ensures made == (!p.createFails && p.temp !in old(folder.files))
    ensures ok == (made && CopyGoes(p, remaining))
    ensures !made ==> folder.files == old(folder.files)
    ensures made ==> p.temp in folder.files && folder.files - {p.temp} == old(folder.files)
    ensures ok ==> folder.files == old(folder.files)[p.temp := p.data]
  {
    ok := false;
    made := folder.Create(p.temp, p.createFails);
    if !made {
      return;
    }
    assert folder.files - {p.temp} == old(folder.files);
    if remaining > 0 && |p.data| > remaining {
      return;
    }
    folder.Write(p.temp, if p.copyFails then p.stray else p.data);
    assert folder.files - {p.temp} == old(folder.files);
    ok := !p.copyFails && !p.syncFails && !p.closeFails;
  }

  lemma TempsGone(files: map<string, string>, own: map<string, string>, parts: seq<Part>, made: nat)
    requires made <= |parts| && Holds(files, own, parts, [], made) && Apart(own, parts, [], made)
    ensures WithoutTemps(files, parts[..made]) == own
  {
    var temps := parts[..made];
    WithoutTempsIs(files, temps);
    forall n ensures TempOf(temps, n, 0, |temps|) <==> TempOf(parts, n, 0, made) {
      if TempOf(parts, n, 0, made) {
        var k :| 0 <= k < made && parts[k].temp == n;
        assert temps[k].temp == n;
      }
      if TempOf(temps, n, 0, |temps|) {
        var k :| 0 <= k < |temps| && temps[k].temp == n;
        assert parts[k].temp == n;
      }
    }
  }

  /** The folder as a failed placing leaves it: its own files and the names placed before. */
  ghost predicate OnlyPlaced(files: map<string, string>, own: map<string, string>, placed: seq<string>) {
    && (forall n :: n in files <==> n in own || n in placed)
    && (forall n :: n in own ==> n !in placed && files[n] == own[n])
  }

  /** A temp's name that was freed may be given to a part; here no name given is a temp's. */
  ghost predicate NamesNoTemps(parts: seq<Part>) {
    forall j, k :: 0 <= j < |parts| && 0 <= k < |parts| ==> parts[j].temp !in parts[k].names
  }

  lemma PlacedLeft(files: map<string, string>, own: map<string, string>, parts: seq<Part>, placed: seq<string>)
    requires |placed| <= |parts| && Holds(files, own, parts, placed, |parts|) && Apart(own, parts, placed, |parts|)
    requires forall j, k :: 0 <= j < |parts| && 0 <= k < |placed| ==> parts[j].temp != placed[k]
    requires forall j :: 0 <= j < |parts| ==> parts[j].temp !in own
    ensures OnlyPlaced(WithoutTemps(files, parts), own, placed)
  {
    WithoutTempsIs(files, parts);
    var r := WithoutTemps(files, parts);
    forall n ensures n in r <==> n in own || n in placed {
      if TempOf(parts, n, |placed|, |parts|) {
        var k :| |placed| <= k < |parts| && parts[k].temp == n;
        assert 0 <= k < |parts|;
      }
      if n in placed {
        assert !TempOf(parts, n, 0, |parts|);
      }
    }
  }

  lemma NamesGone(files: map<string, string>, own: map<string, string>, placed: seq<string>)
    requires OnlyPlaced(files, own, placed)
    ensures WithoutNames(files, placed) == own
  {
    WithoutNamesIs(files, placed);
  }

  datatype Outcome = Outcome(recs: Option<seq<Rec>>, placed: seq<string>)

  /** The temps of a message, in turn; on a failure every one made is gone again. */
  method MakeTemps(folder: Folder, parts: seq<Part>, maxBytes: int) returns (ok: bool)
    modifies folder
    ensures ok ==> Holds(folder.files, old(folder.files), parts, [], |parts|) && Apart(old(folder.files), parts, [], |parts|)
    ensures ok <==> NewTemps(old(folder.files), parts) && AllCopied(parts, maxBytes)
    ensures !ok ==> folder.files == old(folder.files)
  {
    hide *;
    ghost var own := folder.files;
    NothingYet(own, parts);
    SizeMore(parts);
    var remaining := maxBytes;
    for i := 0 to |parts|
      invariant Holds(folder.files, own, parts, [], i) && Apart(own, parts, [], i)
      invariant remaining == maxBytes - SizeOf(parts[..i])
      invariant forall k :: 0 <= k < i ==> CopyGoes(parts[k], maxBytes - SizeOf(parts[..k]))
    {
      assert parts[..i + 1][..i] == parts[..i];
      ghost var before := folder.files;
      var made, done := CopyPart(folder, parts[i], remaining);
      if !done {
        if made {
          folder.Remove(parts[i].temp);
        }
        Cleanup(folder, parts[..i]);
        TempsGone(before, own, parts, i);
        NotAllCopied(before, own, parts, i, maxBytes);
        return false;
      }
      TempMade(before, own, parts, i);
      remaining := remaining - |parts[i].data|;
    }
    assert parts[..|parts|] == parts;
    TempsAreNew(own, parts);
    CopiedAll(parts, maxBytes);
    return true;
  }

  lemma SizeMore(parts: seq<Part>)
    ensures SizeOf(parts[..0]) == 0
    ensures forall i :: 0 <= i < |parts| ==> SizeOf(parts[..i + 1]) == SizeOf(parts[..i]) + |parts[i].data|
  {
    forall i | 0 <= i < |parts| ensures SizeOf(parts[..i + 1]) == SizeOf(parts[..i]) + |parts[i].data| {
      assert parts[..i + 1][..i] == parts[..i];
    }
  }

  lemma CopiedAll(parts: seq<Part>, maxBytes: int)
    requires forall k :: 0 <= k < |parts| ==> CopyGoes(parts[k], maxBytes - SizeOf(parts[..k]))
    ensures AllCopied(parts, maxBytes)
  {
  }

  ghost predicate AllCopied(parts: seq<Part>, maxBytes: int) {
    forall i :: 0 <= i < |parts| ==> CopyGoes(parts[i], maxBytes - SizeOf(parts[..i]))
  }

  lemma TempsAreNew(own: map<string, string>, parts: seq<Part>)
    requires Apart(own, parts, [], |parts|)
    ensures NewTemps(own, parts)
  {
  }

  lemma NotAllCopied(files: map<string, string>, own: map<string, string>, parts: seq<Part>, i: nat, maxBytes: int)
    requires i < |parts| && Holds(files, own, parts, [], i)
    requires parts[i].createFails || parts[i].temp in files || !CopyGoes(parts[i], maxBytes - SizeOf(parts[..i]))
    ensures !NewTemps(own, parts) || !AllCopied(parts, maxBytes)
  {
    hide CopyGoes, SizeOf, Holds;
    CopyNeedsTemp(parts[i], maxBytes - SizeOf(parts[..i]));
    if parts[i].temp in files && parts[i].temp !in own {
      var k := HeldBy(files, own, parts, i, parts[i].temp);
    }
  }

  lemma CopyNeedsTemp(p: Part, remaining: int)
    ensures p.createFails ==> !CopyGoes(p, remaining)
  {
  }

  lemma HeldBy(files: map<string, string>, own: map<string, string>, parts: seq<Part>, made: nat, n: string) returns (k: nat)
    requires made <= |parts| && Holds(files, own, parts, [], made) && n in files && n !in own
    ensures k < made && parts[k].temp == n
  {
    assert TempOf(parts, n, 0, made);
    k :| 0 <= k < made && parts[k].temp == n;
  }

  /** writeFiles: every part under one of its names, recorded with its hash and size; or nothing but the
      names already given, which the caller takes back. */
  method WriteFiles(folder: Folder, parts: seq<Part>, maxBytes: int, sha: string -> string) returns (r: Outcome)
    requires NamesNoTemps(parts)
    modifies folder
    ensures r.recs.Some? <==> Writable(old(folder.files), parts, maxBytes)
    ensures r.recs.Some? ==> Written(folder.files, old(folder.files), parts, r.placed)
    ensures r.recs.Some? ==> |r.placed| == |parts| && r.recs.value == RecsOf(parts, r.placed, sha)
    ensures r.recs.Some? ==> NamesOf(parts, r.placed) && GivenFirst(old(folder.files), parts, r.placed)
    ensures r.recs.None? ==> OnlyPlaced(folder.files, old(folder.files), r.placed)
  {
    hide *;
    ghost var own := folder.files;
    var ok := MakeTemps(folder, parts, maxBytes);
    if !ok {
      NonePlaced(own);
      WritableIs(own, parts, maxBytes);
      return Outcome(None, []);
    }
    TempsNotOwn(own, parts);
    var placed: seq<string> := [];
    var recs: seq<Rec> := [];
    NoRecs(parts, sha);
    NoneGiven(own, parts);
    for i := 0 to |parts|
      invariant |placed| == i && Holds(folder.files, own, parts, placed, |parts|) && Apart(own, parts, placed, |parts|)
      invariant recs == RecsOf(parts, placed, sha) && NamesOf(parts, placed)
      invariant GivenFirst(own, parts, placed) && forall k :: 0 <= k < i ==> !parts[k].placeFails
    {
      ghost var before := folder.files;
      TempThere(before, own, parts, placed);
      var name := folder.Place(parts[i].temp, parts[i].names, parts[i].placeFails);
      if name.NotPlaced? {
        PlacedNoTemps(parts, placed);
        PlacedLeft(before, own, parts, placed);
        Cleanup(folder, parts);
        NotPlacedMeans(before, own, parts, placed, maxBytes);
        return Outcome(None, placed);
      }
      PlacedFirst(before, own, parts, placed, name.name);
      OnePlaced(before, own, parts, placed, name.name);
      RecsMore(parts, placed, name.name, sha);
      placed := placed + [name.name];
      recs := recs + [Rec(name.name, sha(parts[i].data), |parts[i].data|)];
    }
    AllWritten(folder.files, own, parts, placed);
    WritableIs(own, parts, maxBytes);
    AllGiven(own, parts, placed);
    r := Outcome(Some(recs), placed);
  }

  lemma WritableIs(own: map<string, string>, parts: seq<Part>, maxBytes: int)
    ensures Writable(own, parts, maxBytes) <==>
      NewTemps(own, parts) && AllCopied(parts, maxBytes) && AllNamed(own, parts)
      && forall k :: 0 <= k < |parts| ==> !parts[k].placeFails
  {
    hide NewTemps, AllNamed;
    forall i | 0 <= i < |parts|
      ensures CopyGoes(parts[i], maxBytes - SizeOf(parts[..i])) && !parts[i].placeFails
        <==> NoFault(parts[i]) && Admits(maxBytes - SizeOf(parts[..i]), |parts[i].data|)
    {
    }
    hide CopyGoes, NoFault, Admits, SizeOf;
  }

  lemma NoneGiven(own: map<string, string>, parts: seq<Part>)
    ensures GivenFirst(own, parts, [])
  {
  }

  lemma AllGiven(own: map<string, string>, parts: seq<Part>, placed: seq<string>)
    requires GivenFirst(own, parts, placed) && |placed| == |parts|
    ensures AllNamed(own, parts)
  {
  }

  lemma NotPlacedMeans(files: map<string, string>, own: map<string, string>, parts: seq<Part>, placed: seq<string>, maxBytes: int)
    requires |placed| < |parts| && Holds(files, own, parts, placed, |parts|) && NamesNoTemps(parts)
    requires GivenFirst(own, parts, placed)
    requires var p := parts[|placed|]; p.placeFails || forall i :: 0 <= i < |p.names| ==> p.names[i] in files
    ensures !Writable(own, parts, maxBytes)
  {
    var p := parts[|placed|];
    if !p.placeFails {
      NamesHeld(files, own, parts, placed, |placed|);
      NoneLeft(own, parts, placed);
    } else {
      assert !NoFault(parts[|placed|]);
    }
  }

  lemma PlacedFirst(files: map<string, string>, own: map<string, string>, parts: seq<Part>, placed: seq<string>, name: string)
    requires |placed| < |parts| && Holds(files, own, parts, placed, |parts|) && NamesNoTemps(parts)
    requires GivenFirst(own, parts, placed) && FirstNotIn(parts[|placed|].names, files.Keys, name)
    ensures GivenFirst(own, parts, placed + [name]) && name in parts[|placed|].names && name !in files
  {
    NamesHeld(files, own, parts, placed, |placed|);
    FirstHeld(parts[|placed|].names, files.Keys, own.Keys + Names(placed), name);
    GivenMore(own, parts, placed, name);
  }

  /** Each name given is one of its part's. */
  ghost predicate NamesOf(parts: seq<Part>, placed: seq<string>) {
    |placed| <= |parts| && forall i :: 0 <= i < |placed| ==> placed[i] in parts[i].names
  }

  lemma NoRecs(parts: seq<Part>, sha: string -> string)
    ensures RecsOf(parts, [], sha) == [] && NamesOf(parts, [])
  {
  }

  lemma RecsMore(parts: seq<Part>, placed: seq<string>, name: string, sha: string -> string)
    requires |placed| < |parts| && NamesOf(parts, placed) && name in parts[|placed|].names
    ensures NamesOf(parts, placed + [name])
    ensures var p := parts[|placed|];
      RecsOf(parts, placed + [name], sha) == RecsOf(parts, placed, sha) + [Rec(name, sha(p.data), |p.data|)]
  {
    assert (placed + [name])[..|placed|] == placed;
  }

  lemma PlacedNoTemps(parts: seq<Part>, placed: seq<string>)
    requires NamesNoTemps(parts) && NamesOf(parts, placed)
    ensures forall j, k :: 0 <= j < |parts| && 0 <= k < |placed| ==> parts[j].temp != placed[k]
  {
  }

  lemma AllWritten(files: map<string, string>, own: map<string, string>, parts: seq<Part>, placed: seq<string>)
    requires |placed| == |parts| && Holds(files, own, parts, placed, |parts|) && Apart(own, parts, placed, |parts|)
    ensures Written(files, own, parts, placed)
  {
  }

  lemma NonePlaced(own: map<string, string>)
    ensures OnlyPlaced(own, own, [])
  {
  }

  lemma TempsNotOwn(own: map<string, string>, parts: seq<Part>)
    requires Apart(own, parts, [], |parts|)
    ensures forall j :: 0 <= j < |parts| ==> parts[j].temp !in own
  {
  }

  lemma TempThere(files: map<string, string>, own: map<string, string>, parts: seq<Part>, placed: seq<string>)
    requires |placed| < |parts| && Holds(files, own, parts, placed, |parts|)
    ensures parts[|placed|].temp in files
  {
  }

  /** exportFiles, as far as the folder goes: a message whose files cannot all be written leaves the folder as
      it was, and one that is written adds exactly its recorded files. */
  method ExportFiles(folder: Folder, parts: seq<Part>, maxBytes: int, sha: string -> string) returns (recs: Option<seq<Rec>>)
    requires NamesNoTemps(parts)
    modifies folder
    ensures recs.Some? <==> Writable(old(folder.files), parts, maxBytes)
    ensures recs.None? ==> folder.files == old(folder.files)
    ensures recs.Some? ==> Recorded(folder.files, old(folder.files), parts, recs.value, sha)
    ensures recs.Some? ==> GivenFirst(old(folder.files), parts, NamesIn(recs.value))
  {
    ghost var own := folder.files;
    var r := WriteFiles(folder, parts, maxBytes, sha);
    if r.recs.Some? {
      WrittenMeans(folder.files, own, parts, r.placed, r.recs.value, sha);
      assert NamesIn(r.recs.value) == r.placed;
      return r.recs;
    }
    NamesGone(folder.files, own, r.placed);
    TakeBack(folder, r.placed);
    return None;
  }

  function NamesIn(recs: seq<Rec>): (r: seq<string>)
    ensures |r| == |recs| && forall i :: 0 <= i < |r| ==> r[i] == recs[i].name
  {
    if recs == [] then [] else NamesIn(recs[..|recs| - 1]) + [recs[|recs| - 1].name]
  }

  method TakeBack(folder: Folder, placed: seq<string>)
    modifies folder
    ensures folder.files == WithoutNames(old(folder.files), placed)
  {
    for i := 0 to |placed|
      invariant folder.files == WithoutNames(old(folder.files), placed[..i])
    {
      assert placed[..i + 1][..i] == placed[..i];
      folder.Remove(placed[i]);
    }
    assert placed[..|placed|] == placed;
  }

  ghost predicate Recorded(files: map<string, string>, own: map<string, string>, parts: seq<Part>, recs: seq<Rec>, sha: string -> string) {
    && |recs| == |parts|
    && (forall i :: 0 <= i < |parts| ==>
          recs[i].name in parts[i].names && recs[i].name !in own && recs[i].name in files
          && files[recs[i].name] == parts[i].data && recs[i].sha == sha(parts[i].data) && recs[i].size == |parts[i].data|)
    && (forall i, j :: 0 <= i < j < |recs| ==> recs[i].name != recs[j].name)
    && (forall n :: n in own ==> n in files && files[n] == own[n])
    && (forall n :: n in files && n !in own ==> exists i :: 0 <= i < |recs| && recs[i].name == n)
  }

  lemma WrittenMeans(files: map<string, string>, own: map<string, string>, parts: seq<Part>, placed: seq<string>,
                     recs: seq<Rec>, sha: string -> string)
    requires Written(files, own, parts, placed) && NamesOf(parts, placed) && recs == RecsOf(parts, placed, sha)
    ensures Recorded(files, own, parts, recs, sha)
  {
    forall n | n in files && n !in own ensures exists i :: 0 <= i < |recs| && recs[i].name == n {
      assert !TempOf(parts, n, |parts|, |parts|);
      var i :| 0 <= i < |placed| && placed[i] == n;
      assert recs[i].name == n;
    }
  }
}
