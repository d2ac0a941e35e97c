/** The space an attachments zip is given: which parts are admitted, and why the zip is never cut by the
    space it was promised. */
module ZipSpace {
  import opened Wrappers

  newtype int64 = x: int | -0x8000_0000_0000_0000 <= x < 0x8000_0000_0000_0000

  const SLACK: int64 := 4096
  const OVERHEAD: int64 := 1024

  function Sum(chunks: seq<nat>): nat {
    if chunks == [] then 0 else Sum(chunks[..|chunks| - 1]) + chunks[|chunks| - 1]
  }

  lemma {:induction false} SumPrefix(chunks: seq<nat>, i: nat)
    requires i <= |chunks|
    ensures Sum(chunks[..i]) <= Sum(chunks)
    decreases |chunks|
  {
    if i == |chunks| {
      assert chunks[..i] == chunks;
    } else {
      assert chunks[..|chunks| - 1][..i] == chunks[..i];
      SumPrefix(chunks[..|chunks| - 1], i);
    }
  }

  /** attachSpaceWriter: what no longer fits in the space left is refused. */
  class SpaceWriter {
    var left: int64

    constructor (left: int64)
      ensures this.left == left
    {
      this.left := left;
    }

    method Write(n: nat) returns (ok: bool)
      requires left >= 0
      modifies this
      ensures ok == (n <= old(left) as int)
      ensures left as int == old(left) as int - (if ok then n else 0)
    {
      if n > left as int {
        return false;
      }
      left := left - n as int64;
      return true;
    }

    /** A stream's writes, up to the first refused: none is exactly when the whole stream fits. */
    method WriteAll(chunks: seq<nat>) returns (ok: bool)
      requires left >= 0
      modifies this
      ensures left >= 0 && ok == (Sum(chunks) <= old(left) as int)
      ensures ok ==> left as int == old(left) as int - Sum(chunks)
    {
      for i := 0 to |chunks|
        invariant left >= 0 && left as int == old(left) as int - Sum(chunks[..i])
      {
        assert chunks[..i + 1][..i] == chunks[..i];
        SumPrefix(chunks, i + 1);
        ok := Write(chunks[i]);
        if !ok {
          return;
        }
      }
      assert chunks[..|chunks|] == chunks;
      return true;
    }
  }

  // ---- admission

  /** The most an entry of n bytes takes: its data, deflate's overhead on it, its header and record. */
  function Cost(n: nat): nat { n + n / 512 + OVERHEAD as int }

  function CostOf(kept: seq<nat>): nat {
    if kept == [] then 0 else CostOf(kept[..|kept| - 1]) + Cost(kept[|kept| - 1])
  }

  /** What is left for one more entry's data and deflate's overhead on it. */
  function Space(budget: int, used: nat): nat {
    var space := budget - used - SLACK as int - OVERHEAD as int;
    if space > 0 then space else 0
  }

  /** The bytes a part may have: the share deflate may add is taken off without a multiplication. */
  function Room(space: nat): nat { space - (space + 512) / 513 }

  /** The same in 64 bits: no step overflows, whatever the budget. */
  method RoomFor(budget: int64, used: int64) returns (room: int64)
    requires 0 <= used <= budget
    ensures room as int == Room(Space(budget as int, used as int))
  {
    room := budget - used - SLACK - OVERHEAD;
    if room < 0 {
      room := 0;
    }
    room := room - (room + 512) / 513;
  }

  /** A part admitted fits with deflate's overhead, and one refused does not, but for a part that would
      fill the space to the last byte. */
  lemma AdmissionIsExact(space: nat, n: nat)
    ensures n <= Room(space) ==> n + n / 512 <= space
    ensures n > Room(space) ==> n + n / 512 >= space
  {
    var q, t := space / 513, space % 513;
    assert (space + 512) / 513 == q + (if t > 0 then 1 else 0);
    assert Room(space) == 512 * q + (if t > 0 then t - 1 else 0);
    if n <= Room(space) {
      assert n / 512 <= q;
    } else {
      assert n / 512 >= q;
    }
  }

  // ---- the parts

  /** One attachment: the chunks its data comes in, whether its reading ends in an error, and whether the
      run is stopped before it, while it is read, or while it is written. */
  datatype Part = Part(kept: bool, chunks: seq<nat>, readFails: bool, stopBefore: bool, stopReading: bool, stopWriting: bool)

  datatype Note = NothingKept | NoSpaceForPart | Unreadable | EmptyPart | StoppedNote | NoSpaceNote | WriteFailed

  /** Why a part is left out, None when it is written. */
  function LeftOut(a: Part, room: nat): (r: Option<Note>)
    ensures r.Some? ==> r.value in {NothingKept, NoSpaceForPart, Unreadable, EmptyPart}
  {
    if !a.kept then Some(NothingKept)
    else if Sum(a.chunks) > room then Some(NoSpaceForPart)
    else if a.readFails then Some(Unreadable)
    else if Sum(a.chunks) == 0 then Some(EmptyPart)
    else None
  }

  /** The sizes of the entries, and the notes, after the parts of a run that is not stopped. */
  datatype Entries = Entries(kept: seq<nat>, notes: seq<Note>)

  function AfterParts(atts: seq<Part>, budget: int): Entries {
    if atts == [] then Entries([], [])
    else
      var front, last := AfterParts(atts[..|atts| - 1], budget), atts[|atts| - 1];
      var why := LeftOut(last, Room(Space(budget, CostOf(front.kept))));
      if why.Some? then front.(notes := front.notes + [why.value]) else front.(kept := front.kept + [Sum(last.chunks)])
  }

  /** Once a part is admitted, the entries and the end of the zip fit the budget; every part is an entry
      or has a note. */
  lemma {:induction false} PartsFit(atts: seq<Part>, budget: int)
    ensures var e := AfterParts(atts, budget);
      && |e.kept| + |e.notes| == |atts|
      && (e.kept != [] ==> CostOf(e.kept) + SLACK as int <= budget)
  {
    if atts != [] {
      var front, last := AfterParts(atts[..|atts| - 1], budget), atts[|atts| - 1];
      PartsFit(atts[..|atts| - 1], budget);
      CostMore(front.kept, Sum(last.chunks));
      AdmissionIsExact(Space(budget, CostOf(front.kept)), Sum(last.chunks));
      hide CostOf;
      hide Sum;
    }
  }

  lemma CostMore(kept: seq<nat>, n: nat)
    ensures CostOf(kept + [n]) == CostOf(kept) + Cost(n)
  {
    assert (kept + [n])[..|kept|] == kept;
  }

  // ---- the zip

  /** What the zip writer writes: `entry` the chunks written while the last of these entries is made,
      `end` those that close the zip. */
  datatype Deflater = Deflater(entry: seq<nat> -> seq<nat>, end: seq<nat> -> seq<nat>)

  function Written(z: Deflater, kept: seq<nat>): nat {
    if kept == [] then 0 else Written(z, kept[..|kept| - 1]) + Sum(z.entry(kept))
  }

  /** Entries never take more than their cost, and the end of the zip no more than the slack besides. */
  ghost predicate Bounded(z: Deflater) {
    forall kept :: Written(z, kept) <= CostOf(kept) && Written(z, kept) + Sum(z.end(kept)) <= CostOf(kept) + SLACK as int
  }

  lemma WrittenMore(z: Deflater, kept: seq<nat>, n: nat)
    ensures Written(z, kept + [n]) == Written(z, kept) + Sum(z.entry(kept + [n]))
  {
    assert (kept + [n])[..|kept|] == kept;
  }

  /** Where the destination fails, and where the run is stopped, outside the parts. */
  datatype Faults = Faults(dir: bool, temp: bool, write: set<nat>, stopClosing: bool, close: bool, sync: bool, stopAtEnd: bool, place: bool)

  // ---- what ends it

  /** The part is admitted after those before it. */
  ghost predicate Admitted(atts: seq<Part>, budget: int, i: nat)
    requires i < |atts|
  {
    LeftOut(atts[i], Room(Space(budget, CostOf(AfterParts(atts[..i], budget).kept)))).None?
  }

  /** The part is the zip's first entry, and the temp file cannot be made. */
  ghost predicate TempFails(atts: seq<Part>, budget: int, f: Faults, i: nat)
    requires i < |atts|
  {
    f.temp && AfterParts(atts[..i], budget).kept == []
  }

  /** The run is stopped before the part, while it is read, or while it is written. */
  ghost predicate StopsAt(atts: seq<Part>, budget: int, f: Faults, i: nat)
    requires i < |atts|
  {
    || atts[i].stopBefore || (atts[i].kept && atts[i].stopReading)
    || (Admitted(atts, budget, i) && !TempFails(atts, budget, f, i) && atts[i].stopWriting)
  }

  /** The destination fails under the part, the run going on. */
  ghost predicate FailsAt(atts: seq<Part>, budget: int, f: Faults, i: nat)
    requires i < |atts|
  {
    && !StopsAt(atts, budget, f, i) && Admitted(atts, budget, i)
    && (TempFails(atts, budget, f, i) || i in f.write)
  }

  /** The parts before i go by, with neither. */
  ghost predicate QuietTo(atts: seq<Part>, budget: int, f: Faults, i: nat)
    requires i <= |atts|
  {
    forall j :: 0 <= j < i ==> !StopsAt(atts, budget, f, j) && !FailsAt(atts, budget, f, j)
  }

  /** The zip is given up for a stop: at the first part under which anything happens, or at the end. */
  ghost predicate IsStopped(atts: seq<Part>, budget: int, f: Faults) {
    !f.dir &&
    ((exists i :: 0 <= i < |atts| && QuietTo(atts, budget, f, i) && StopsAt(atts, budget, f, i))
     || (QuietTo(atts, budget, f, |atts|) && AfterParts(atts, budget).kept != []
         && (f.stopClosing || (!f.close && !f.sync && f.stopAtEnd))))
  }

  /** Or for the destination. */
  ghost predicate IsFailed(atts: seq<Part>, budget: int, f: Faults) {
    f.dir
    || (exists i :: 0 <= i < |atts| && QuietTo(atts, budget, f, i) && FailsAt(atts, budget, f, i))
    || (QuietTo(atts, budget, f, |atts|) && AfterParts(atts, budget).kept != []
        && !f.stopClosing && (f.close || f.sync || (!f.stopAtEnd && f.place)))
  }

  /** A zip is made: some part is kept, and nothing ends it. */
  ghost predicate IsMade(atts: seq<Part>, budget: int, f: Faults) {
    budget > 0 && AfterParts(atts, budget).kept != [] && !IsStopped(atts, budget, f) && !IsFailed(atts, budget, f)
  }

  /** The notes added: that there is no space, that the run was stopped or that the destination failed, each exactly
      where it is so; else one for each part left out. */
  ghost predicate NotesTell(atts: seq<Part>, budget: int, f: Faults, added: seq<Note>) {
    && (atts == [] ==> added == [])
    && (atts != [] && budget <= 0 ==> added == [NoSpaceNote])
    && (atts != [] && budget > 0 ==>
          && (IsStopped(atts, budget, f) ==> added == [StoppedNote])
          && (IsFailed(atts, budget, f) ==> added == [WriteFailed])
          && (!IsStopped(atts, budget, f) && !IsFailed(atts, budget, f) ==> added == AfterParts(atts, budget).notes))
  }

  /** Nothing happens: no stop and no fault anywhere. */
  predicate Undisturbed(atts: seq<Part>, f: Faults) {
    f == Faults(false, false, {}, false, false, false, false, false)
    && forall i :: 0 <= i < |atts| ==> !atts[i].stopBefore && !atts[i].stopReading && !atts[i].stopWriting
  }

  /** So with a budget, a zip is made exactly when a part can be kept. */
  lemma UndisturbedGoes(atts: seq<Part>, budget: int, f: Faults)
    requires Undisturbed(atts, f)
    ensures IsMade(atts, budget, f) <==> budget > 0 && AfterParts(atts, budget).kept != []
  {
    hide LeftOut, AfterParts;
  }

  lemma Told(atts: seq<Part>, budget: int, f: Faults)
    ensures IsMade(atts, budget, f) <==>
      budget > 0 && AfterParts(atts, budget).kept != [] && !IsStopped(atts, budget, f) && !IsFailed(atts, budget, f)
    ensures NotesTell(atts, budget, f, if atts == [] then [] else if budget <= 0 then [NoSpaceNote]
                                       else if IsStopped(atts, budget, f) && !IsFailed(atts, budget, f) then [StoppedNote]
                                       else if IsFailed(atts, budget, f) && !IsStopped(atts, budget, f) then [WriteFailed]
                                       else AfterParts(atts, budget).notes)
  {
  }

  lemma EndsWith(atts: seq<Part>, budget: int, f: Faults, i: nat)
    requires i < |atts| && QuietTo(atts, budget, f, i) && !f.dir
    ensures StopsAt(atts, budget, f, i) ==> IsStopped(atts, budget, f) && !IsFailed(atts, budget, f)
    ensures FailsAt(atts, budget, f, i) ==> IsFailed(atts, budget, f) && !IsStopped(atts, budget, f)
  {
    hide Admitted, TempFails, AfterParts;
  }

  /** The zip being made: whether its temp file is there, the sizes of its entries, the notes, and whether
      the budget's writer ever refused a write. */
  class ZipMaker {
    var temp: bool
    var kept: seq<nat>
    var notes: seq<Note>
    var refused: bool

    /** A zip is whole or it is not there: the temp goes, and with it the notes made for its parts. */
    method Abort(mark: nat, why: Note)
      requires mark <= |notes|
      modifies this
      ensures !temp && kept == [] && refused == old(refused) && notes == old(notes)[..mark] + [why]
    {
      temp, kept, notes := false, [], notes[..mark] + [why];
    }

    /** A part read whole before anything of it is written. */
    static method ReadPart(a: Part, room: int64) returns (n: nat, why: Option<Note>)
      requires room >= 0
      ensures n == Sum(a.chunks)
      ensures why == if !a.kept then Some(NothingKept) else if a.stopReading then Some(StoppedNote) else LeftOut(a, room as int)
    {
      n := Sum(a.chunks);
      if !a.kept {
        return n, Some(NothingKept);
      }
      var buf := new SpaceWriter(room);
      var ok := buf.WriteAll(a.chunks);
      if a.stopReading {
        return n, Some(StoppedNote);
      }
      if !ok {
        return n, Some(NoSpaceForPart);
      }
      if a.readFails {
        return n, Some(Unreadable);
      }
      return n, if n == 0 then Some(EmptyPart) else None;
    }

    /** One more entry, in a temp file made with the first. */
    method AddEntry(left: SpaceWriter, mark: nat, n: nat, z: Deflater, tempFails: bool, stops: bool, fails: bool)
      returns (ok: bool)
      requires mark <= |notes| && left.left >= 0 && Sum(z.entry(kept + [n])) <= left.left as int && !refused
      requires temp <==> kept != []
      modifies this, left
      ensures !refused && (ok <==> !(tempFails && old(kept) == []) && !stops && !fails)
      ensures ok ==>
                && temp && kept == old(kept) + [n] && notes == old(notes)
                && left.left as int == old(left.left) as int - Sum(z.entry(kept))
      ensures !ok ==>
                && !temp && kept == []
                && notes == old(notes)[..mark]
                            + [if stops && !(tempFails && old(kept) == []) then StoppedNote else WriteFailed]
    {
      hide Sum;
      if !temp && tempFails {
        Abort(mark, WriteFailed);
        return false;
      }
      temp, kept := true, kept + [n];
      ok := left.WriteAll(z.entry(kept));
      refused := refused || !ok;
      if !ok || fails || stops {
        Abort(mark, if stops then StoppedNote else if !ok then NoSpaceNote else WriteFailed);
        return false;
      }
    }

    /** The end of the zip: its directory, the flush, and its name. */
    method CloseZip(left: SpaceWriter, mark: nat, z: Deflater, f: Faults) returns (done: bool)
      requires mark <= |notes| && left.left >= 0 && Sum(z.end(kept)) <= left.left as int && !refused
      modifies this, left
      ensures !refused && (done <==> !f.stopClosing && !f.close && !f.sync && !f.stopAtEnd && !f.place)
      ensures done ==> temp == old(temp) && kept == old(kept) && notes == old(notes)
      ensures !done ==>
                && !temp && kept == []
                && notes == old(notes)[..mark]
                            + [if f.stopClosing || (!f.close && !f.sync && f.stopAtEnd) then StoppedNote else WriteFailed]
    {
      hide Sum;
      var ok := left.WriteAll(z.end(kept));
      refused := refused || !ok;
      done := ok && !f.stopClosing && !f.close && !f.sync && !f.stopAtEnd && !f.place;
      if !done {
        var stopped := f.stopClosing || (f.stopAtEnd && !f.close && !f.sync);
        Abort(mark, if stopped then StoppedNote else if !ok then NoSpaceNote else WriteFailed);
      }
    }

    /** zipParts, from the budget on: the zip of exactly the parts that fit, whose writer was never refused
        the space it was promised; or no zip, and one note, or a note for every part. */
    method ZipParts(atts: seq<Part>, budget: int64, z: Deflater, f: Faults) returns (done: bool)
      requires Bounded(z) && !temp && kept == [] && !refused
      modifies this
      ensures !refused && old(notes) <= notes
      ensures done <==> IsMade(atts, budget as int, f)
      ensures NotesTell(atts, budget as int, f, notes[|old(notes)|..])
      ensures done ==> temp && Entries(kept, notes[|old(notes)|..]) == AfterParts(atts, budget as int)
      ensures done ==> kept != [] && Written(z, kept) + Sum(z.end(kept)) <= budget as int
      ensures !done ==> !temp && kept == []
    {
      hide AfterParts, CostOf, Written, Sum, Room, Space, LeftOut, Bounded, Cost, IsStopped, IsFailed, IsMade, NotesTell, QuietTo;
      done := false;
      var mark := |notes|;
      Told(atts, budget as int, f);
      NoParts(atts, budget as int, z);
      if atts == [] {
        assert notes[mark..] == [];
        return;
      }
      if budget <= 0 {
        notes := notes + [NoSpaceNote];
        return;
      }
      DirFails(atts, budget as int, f);
      if f.dir {
        Abort(mark, WriteFailed);
        return;
      }
      ghost var start := notes;
      var used: int64 := 0;
      var left := new SpaceWriter(budget);
      for i := 0 to |atts|
        invariant fresh(left) && left.left >= 0 && !refused
        invariant start <= notes && (temp <==> kept != [])
        invariant Entries(kept, notes[mark..]) == AfterParts(atts[..i], budget as int)
        invariant used as int == CostOf(kept) && used <= budget
        invariant left.left as int == budget as int - Written(z, kept)
        invariant QuietTo(atts, budget as int, f, i)
      {
        var a := atts[i];
        PartEnds(atts, budget as int, f, i);
        if a.stopBefore {
          Abort(mark, StoppedNote);
          return;
        }
        var room := RoomFor(budget, used);
        var n, why := ReadPart(a, room);
        if why == Some(StoppedNote) {
          Abort(mark, StoppedNote);
          return;
        }
        PartsMore(atts, i, budget as int, z);
        if why.Some? {
          notes := notes + [why.value];
          assert notes[mark..] == AfterParts(atts[..i + 1], budget as int).notes;
          continue;
        }
        var ok := AddEntry(left, mark, n, z, f.temp, a.stopWriting, i in f.write);
        if !ok {
          return;
        }
        CostIs(n);
        used := used + n as int64 + (n / 512) as int64 + OVERHEAD;
      }
      assert atts[..|atts|] == atts;
      AtTheEnd(atts, budget as int, f);
      if !temp {
        return;
      }
      EndFits(atts, budget as int, z);
      done := CloseZip(left, mark, z, f);
    }
  }

  lemma CostIs(n: nat)
    ensures Cost(n) == n + n / 512 + OVERHEAD as int
  {
  }

  lemma DirFails(atts: seq<Part>, budget: int, f: Faults)
    ensures f.dir ==> IsFailed(atts, budget, f) && !IsStopped(atts, budget, f)
    ensures QuietTo(atts, budget, f, 0)
  {
  }

  /** What one part's turn comes to. */
  lemma PartEnds(atts: seq<Part>, budget: int, f: Faults, i: nat)
    requires i < |atts| && QuietTo(atts, budget, f, i) && !f.dir
    ensures var a, e := atts[i], AfterParts(atts[..i], budget);
      var out := LeftOut(a, Room(Space(budget, CostOf(e.kept)))).Some?;
      var stopped := IsStopped(atts, budget, f) && !IsFailed(atts, budget, f);
      var failed := IsFailed(atts, budget, f) && !IsStopped(atts, budget, f);
      && (a.stopBefore || (a.kept && a.stopReading) ==> stopped)
      && (!a.stopBefore && !(a.kept && a.stopReading) ==>
            && (out ==> QuietTo(atts, budget, f, i + 1))
            && (!out && f.temp && e.kept == [] ==> failed)
            && (!out && !(f.temp && e.kept == []) && a.stopWriting ==> stopped)
            && (!out && !(f.temp && e.kept == []) && !a.stopWriting && i in f.write ==> failed)
            && (!out && !(f.temp && e.kept == []) && !a.stopWriting && i !in f.write ==> QuietTo(atts, budget, f, i + 1)))
  {
    EndsWith(atts, budget, f, i);
    hide IsStopped, IsFailed, LeftOut, Room, Space, CostOf, AfterParts;
  }

  lemma AtTheEnd(atts: seq<Part>, budget: int, f: Faults)
    requires QuietTo(atts, budget, f, |atts|) && !f.dir
    ensures AfterParts(atts, budget).kept == [] ==> !IsStopped(atts, budget, f) && !IsFailed(atts, budget, f)
    ensures AfterParts(atts, budget).kept != [] ==>
              && (IsStopped(atts, budget, f) <==> f.stopClosing || (!f.close && !f.sync && f.stopAtEnd))
              && (IsFailed(atts, budget, f) <==> !f.stopClosing && (f.close || f.sync || (!f.stopAtEnd && f.place)))
  {
    hide StopsAt, FailsAt, AfterParts;
  }

  lemma NoParts(atts: seq<Part>, budget: int, z: Deflater)
    ensures AfterParts(atts[..0], budget) == Entries([], []) && CostOf([]) == 0 && Written(z, []) == 0
    ensures atts == [] ==> AfterParts(atts, budget) == Entries([], [])
  {
    assert atts[..0] == [];
  }

  lemma PartsMore(atts: seq<Part>, i: nat, budget: int, z: Deflater)
    requires i < |atts| && Bounded(z)
    ensures var e, e' := AfterParts(atts[..i], budget), AfterParts(atts[..i + 1], budget);
      var why := LeftOut(atts[i], Room(Space(budget, CostOf(e.kept))));
      && (why.Some? ==> e' == e.(notes := e.notes + [why.value]))
      && (why.None? ==>
            && e' == e.(kept := e.kept + [Sum(atts[i].chunks)])
            && CostOf(e'.kept) == CostOf(e.kept) + Cost(Sum(atts[i].chunks)) && CostOf(e'.kept) + SLACK as int <= budget
            && Written(z, e'.kept) == Written(z, e.kept) + Sum(z.entry(e'.kept)) && Written(z, e'.kept) <= CostOf(e'.kept))
    ensures !atts[i].kept ==> LeftOut(atts[i], Room(Space(budget, CostOf(AfterParts(atts[..i], budget).kept)))) == Some(NothingKept)
  {
    assert atts[..i + 1][..i] == atts[..i];
    var e := AfterParts(atts[..i], budget);
    PartsFit(atts[..i + 1], budget);
    CostMore(e.kept, Sum(atts[i].chunks));
    WrittenMore(z, e.kept, Sum(atts[i].chunks));
    hide CostOf;
    hide Written;
    hide Room;
    hide Space;
    hide Sum;
  }

  lemma EndFits(atts: seq<Part>, budget: int, z: Deflater)
    requires Bounded(z) && AfterParts(atts, budget).kept != []
    ensures var kept := AfterParts(atts, budget).kept;
      Written(z, kept) + Sum(z.end(kept)) <= budget
  {
    PartsFit(atts, budget);
  }
}
