/** Extracting an archived zip: the bounds an entry is judged by, and what they keep over every zip. */
module ZipBounds {
  import opened Wrappers
  import ZipSpace

  const TWO64: nat := 0x1_0000_0000_0000_0000
  const TWO63: nat := 0x8000_0000_0000_0000

  newtype uint64 = x: int | 0 <= x < 0x1_0000_0000_0000_0000
  type int64 = ZipSpace.int64

  datatype Bounds = Bounds(entries: nat, entryBytes: int64, totalBytes: int64, ratio: int64)

  /** Bounds as a run has them: what they multiply and add to stays within 64 bits. */
  predicate Sane(bd: Bounds, size: nat) {
    && bd.ratio > 0 && 0 <= bd.entryBytes && 0 <= bd.totalBytes
    && bd.entryBytes as int + bd.totalBytes as int + 1 < TWO63
    && bd.ratio as int * size < TWO63
  }

  datatype Why = Encrypted | TooLarge | Expands | PastTotal | WholeExpands | ReallyExpands | Problem

  /** What the data of an entry does each time it is read: the chunks it yields, the bytes of the zip it is
      read from, and the error or the panic it ends in, if any, when it is read that far. */
  datatype Stream = Stream(chunks: seq<nat>, pulled: nat, fails: bool, panics: bool)

  /** How writing the entry to the destination goes, once its data was read through. */
  datatype Put = PutDone | PutFails | PutStopped

  /** An entry of a zip: what its header claims, what its data does, whether the run is stopped before it or
      before which chunk of it, and how it is put. */
  datatype Entry = Entry(isDir: bool, encrypted: bool, declared: uint64, packed: uint64, data: Stream,
                         stopBefore: bool, stopsAt: nat, put: Put)

  /** breach, on what the header claims: the sum is one of 64 bits, the quotient no larger than the claim. */
  function Breach(bd: Bounds, size: nat, e: Entry, total: int64): Option<Why>
    requires Sane(bd, size) && 0 <= total as int <= bd.totalBytes as int + 1
  {
    if e.encrypted then Some(Encrypted)
    else if e.declared > bd.entryBytes as uint64 then Some(TooLarge)
    else if e.declared > 0 && (e.declared as int - 1) / bd.ratio as int >= e.packed as int then Some(Expands)
    else if total + e.declared as int64 > bd.totalBytes then Some(PastTotal)
    else None
  }

  /** What an entry claims is within the bounds, and so is the total with it. */
  predicate Claims(bd: Bounds, e: Entry, total: int) {
    && !e.encrypted && e.declared as int <= bd.entryBytes as int
    && e.declared as int <= bd.ratio as int * e.packed as int
    && total + e.declared as int <= bd.totalBytes as int
  }

  lemma DivisionIsExact(declared: nat, ratio: nat, packed: nat)
    requires ratio > 0 && declared > 0
    ensures (declared - 1) / ratio >= packed <==> declared > ratio * packed
  {
    var q, r := (declared - 1) / ratio, (declared - 1) % ratio;
    assert declared - 1 == ratio * q + r;
    if q >= packed {
      assert ratio * q >= ratio * packed;
    } else {
      assert ratio * (q + 1) <= ratio * packed;
      assert ratio * (q + 1) == ratio * q + ratio;
    }
  }

  /** The division judges the true product: an entry passes exactly when it claims no more than the bounds
      and no more than ratio times what it claims to pack into, whatever sizes of 64 bits it claims; and what it is
      refused for is the first of them it breaks. */
  lemma BreachIsExact(bd: Bounds, size: nat, e: Entry, total: int64)
    requires Sane(bd, size) && 0 <= total as int <= bd.totalBytes as int + 1
    ensures Breach(bd, size, e, total).None? <==> Claims(bd, e, total as int)
    ensures Breach(bd, size, e, total) == Some(Encrypted) <==> e.encrypted
    ensures Breach(bd, size, e, total) == Some(TooLarge) <==> !e.encrypted && e.declared as int > bd.entryBytes as int
    ensures Breach(bd, size, e, total) == Some(Expands) <==>
      !e.encrypted && bd.ratio as int * e.packed as int < e.declared as int <= bd.entryBytes as int
    ensures Breach(bd, size, e, total).Some? ==> Breach(bd, size, e, total).value in {Encrypted, TooLarge, Expands, PastTotal}
  {
    if e.declared > 0 {
      DivisionIsExact(e.declared as int, bd.ratio as int, e.packed as int);
    } else {
      assert 0 <= bd.ratio as int * e.packed as int;
    }
  }

  /** The product itself would wrap: a claim of 2^63 bytes that packs into 2^57 expands 64 times, and its
      wrapped product with a ratio of 128 is 0, so judging by it would refuse what the bound allows. */
  lemma ProductWraps()
    ensures var declared, ratio, packed := 0x8000_0000_0000_0000, 128, 0x200_0000_0000_0000;
      declared <= ratio * packed && declared > (ratio * packed) % TWO64
  {
  }

  // ---- reading an entry through

  function Least(a: nat, b: nat): nat { if a < b then a else b }

  /** How many bytes a copy moves to a writer that takes at most `left`, from a stream cut after `cap`: the
      chunks that fit, up to the first that does not. */
  function Taken(chunks: seq<nat>, cap: nat, left: nat): nat {
    if chunks == [] then 0
    else
      var n := Least(chunks[0], cap);
      if n > left then 0 else n + Taken(chunks[1..], cap - n, left - n)
  }

  /** Whether a write was refused. */
  predicate Cut(chunks: seq<nat>, cap: nat, left: nat) {
    chunks != [] &&
    var n := Least(chunks[0], cap);
    n > left || Cut(chunks[1..], cap - n, left - n)
  }

  lemma {:induction false} TakenBounds(chunks: seq<nat>, cap: nat, left: nat)
    ensures Taken(chunks, cap, left) <= cap && Taken(chunks, cap, left) <= left
    ensures !Cut(chunks, cap, left) ==> Taken(chunks, cap, left) == Taken(chunks, cap, cap) && !Cut(chunks, cap, cap)
  {
    if chunks != [] {
      var n := Least(chunks[0], cap);
      if n <= left {
        TakenBounds(chunks[1..], cap - n, left - n);
      }
    }
  }

  /** The copy loop, over zipWholeWriter. */
  method CopyThrough(chunks: seq<nat>, cap: nat, left: nat) returns (n: nat, cut: bool)
    ensures n == Taken(chunks, cap, left) && cut == Cut(chunks, cap, left)
  {
    n, cut := 0, false;
    var rest, room := cap, left;
    for i := 0 to |chunks|
      invariant n + Taken(chunks[i..], rest, room) == Taken(chunks, cap, left)
      invariant Cut(chunks[i..], rest, room) == Cut(chunks, cap, left)
    {
      assert chunks[i..][0] == chunks[i] && chunks[i..][1..] == chunks[i + 1..];
      var p := Least(chunks[i], rest);
      if p > room {
        return n, true;
      }
      n, rest, room := n + p, rest - p, room - p;
    }
  }

  /** The bytes an entry expands to when it is read with its own claim as the only limit. */
  function Expansion(e: Entry): nat { Taken(e.data.chunks, e.declared as int + 1, e.declared as int + 1) }

  /** An entry whose data is what its header says: it ends within its claim and without an error. */
  predicate Sound(e: Entry) {
    !e.data.fails && !e.data.panics && Expansion(e) <= e.declared as int
  }

  /** The run is stopped while the entry is read through. */
  predicate StopSeen(e: Entry) {
    e.stopsAt < |e.data.chunks|
    && Taken(e.data.chunks[..e.stopsAt], e.declared as int + 1, e.declared as int + 1) < e.declared as int + 1
  }

  /** The chunks read until the run is stopped, all of them when it is not. */
  function Read(e: Entry): seq<nat> { if StopSeen(e) then e.data.chunks[..e.stopsAt] else e.data.chunks }

  /** The reading passes what the whole zip may still expand to. */
  predicate CutShort(e: Entry, left: nat) { Cut(Read(e), e.declared as int + 1, left) }

  /** The entry is read through to its end, is what its header says, and stays within the bounds on what it expands
      to. */
  predicate ReadsWell(bd: Bounds, e: Entry, left: nat) {
    Sound(e) && !StopSeen(e) && !CutShort(e, left) && Expansion(e) <= bd.ratio as int * e.data.pulled
  }

  /** The reading meets the panic its data ends in: it is neither cut, nor stopped, nor at the end of its
      claim before. */
  predicate PanicMet(e: Entry, left: nat) {
    && e.data.panics && !StopSeen(e)
    && !Cut(e.data.chunks, e.declared as int + 1, left)
    && Taken(e.data.chunks, e.declared as int + 1, left) <= e.declared as int
  }

  /** Why an entry is left out: what it claims, what the whole zip would expand to, what it expands to, or a problem
      of its data or of the destination. */
  function WhyLeft(bd: Bounds, e: Entry, total: int, room: nat): Why {
    if e.encrypted then Encrypted
    else if e.declared as int > bd.entryBytes as int then TooLarge
    else if e.declared as int > bd.ratio as int * e.packed as int then Expands
    else if total + e.declared as int > bd.totalBytes as int then PastTotal
    else if CutShort(e, room) then WholeExpands
    else if Sound(e) && Expansion(e) > bd.ratio as int * e.data.pulled then ReallyExpands
    else Problem
  }

  /** The bytes of an entry that a panic ends are read and not counted. */
  datatype Reading = Reading(n: int64, stopped: bool, why: Option<Why>)

  /** What the reading comes to where so much may still be expanded to: all is well, the run is stopped, or the entry
      is left out, and why; and the bytes that count. */
  ghost predicate ReadAs(bd: Bounds, e: Entry, room: nat, r: Reading) {
    && (ReadsWell(bd, e, room) <==> !r.stopped && r.why.None?)
    && (r.stopped <==> StopSeen(e) && !CutShort(e, room))
    && (r.why == Some(WholeExpands) <==> CutShort(e, room))
    && (r.why == Some(ReallyExpands) <==>
          !CutShort(e, room) && !StopSeen(e) && Sound(e) && Expansion(e) > bd.ratio as int * e.data.pulled)
    && (r.why.Some? ==> !r.stopped && r.why.value in {WholeExpands, ReallyExpands, Problem})
    && r.n as int == if PanicMet(e, room) then 0 else Taken(Read(e), e.declared as int + 1, room)
  }

  /** expand: one entry read to nowhere, held to its claim and to what the whole zip may expand to. */
  method Expand(bd: Bounds, size: nat, e: Entry, expanded: int64) returns (r: Reading, ghost read: nat)
    requires Sane(bd, size) && e.declared as int <= bd.entryBytes as int
    requires 0 <= expanded as int <= bd.ratio as int * size
    ensures read <= e.declared as int + 1 && expanded as int + read <= bd.ratio as int * size
    ensures r.n as int == if PanicMet(e, bd.ratio as int * size - expanded as int) then 0 else read
    ensures !r.stopped && r.why.None? ==> r.n as int == Expansion(e)
    ensures ReadAs(bd, e, bd.ratio as int * size - expanded as int, r)
  {
    var left := bd.ratio as int * size - expanded as int;
    var cap := e.declared as int + 1;
    var stopped := StopSeen(e);
    var seen := Read(e);
    TakenBounds(seen, cap, left);
    TakenBounds(seen, cap, cap);
    var k, cut := CopyThrough(seen, cap, left);
    read := k;
    hide Cut;
    hide Taken;
    if cut {
      return Reading(k as int64, false, Some(WholeExpands)), read;
    }
    if stopped {
      return Reading(k as int64, true, None), read;
    }
    if e.data.panics && k < cap {
      return Reading(0, false, Some(Problem)), read;
    }
    if e.data.fails || k > e.declared as int {
      return Reading(k as int64, false, Some(Problem)), read;
    }
    if k > bd.ratio as int * e.data.pulled {
      return Reading(k as int64, false, Some(ReallyExpands)), read;
    }
    return Reading(k as int64, false, None), read;
  }

  lemma SumMore(ns: seq<nat>, n: nat)
    ensures ZipSpace.Sum(ns + [n]) == ZipSpace.Sum(ns) + n
  {
    assert (ns + [n])[..|ns|] == ns;
  }

  function FileCount(entries: seq<Entry>): nat {
    if entries == [] then 0 else FileCount(entries[..|entries| - 1]) + (if entries[|entries| - 1].isDir then 0 else 1)
  }

  /** Only entries whose data is what it says, within every bound, are placed. */
  ghost predicate PlacedSoundly(entries: seq<Entry>, placed: seq<nat>, sizes: seq<nat>, bd: Bounds) {
    && |placed| == |sizes|
    && (forall k :: 0 <= k < |placed| ==> placed[k] < |entries|)
    && (forall j, k :: 0 <= j < k < |placed| ==> placed[j] < placed[k])
    && forall k :: 0 <= k < |placed| ==>
         var e := entries[placed[k]];
         && !e.isDir && !e.encrypted && Sound(e) && sizes[k] == Expansion(e) <= e.declared as int
         && sizes[k] <= bd.entryBytes as int
         && sizes[k] <= bd.ratio as int * e.packed as int && sizes[k] <= bd.ratio as int * e.data.pulled
  }

  predicate NonePanics(entries: seq<Entry>) { forall i :: 0 <= i < |entries| ==> !entries[i].data.panics }

  datatype Tally = Tally(expanded: int, placed: seq<nat>, sizes: seq<nat>, left: seq<Why>)

  /** One entry done with: placed with its size exactly when its claims are within the bounds, it reads well and it
      can be put; else left out, and why, or the run is stopped while it is read or put. What was read of it counts
      in any case. */
  ghost predicate EntryDone(bd: Bounds, size: nat, e: Entry, i: nat, a: Tally, b: Tally, stopped: bool)
    requires 0 <= a.expanded <= bd.ratio as int * size
  {
    var room := bd.ratio as int * size - a.expanded;
    var claims := Claims(bd, e, a.expanded);
    var well := claims && ReadsWell(bd, e, room);
    && (stopped <==> (claims && StopSeen(e) && !CutShort(e, room)) || (well && e.put.PutStopped?))
    && b.placed == (if well && e.put.PutDone? then a.placed + [i] else a.placed)
    && b.sizes == (if well && e.put.PutDone? then a.sizes + [Expansion(e)] else a.sizes)
    && b.left == (if stopped || (well && e.put.PutDone?) then a.left else a.left + [WhyLeft(bd, e, a.expanded, room)])
    && b.expanded == a.expanded + if claims && !PanicMet(e, room) then Taken(Read(e), e.declared as int + 1, room) else 0
  }

  lemma SaneFits(bd: Bounds, size: nat)
    requires Sane(bd, size)
    ensures 0 <= bd.ratio as int * size < TWO63 && bd.entryBytes as int + bd.totalBytes as int + 1 < TWO63
    ensures 0 <= bd.entryBytes && 0 <= bd.totalBytes
  {
  }

  lemma PanicsMet(entries: seq<Entry>, i: nat, left: nat)
    requires i < |entries|
    ensures PanicMet(entries[i], left) ==> !NonePanics(entries)
  {
  }

  lemma ClaimsAre(bd: Bounds, e: Entry, total: int)
    ensures Claims(bd, e, total) ==>
      e.declared as int <= bd.entryBytes as int && total + e.declared as int <= bd.totalBytes as int
  {
  }

  lemma BreachLeft(bd: Bounds, size: nat, e: Entry, i: nat, a: Tally, why: Why)
    requires Sane(bd, size) && 0 <= a.expanded <= bd.ratio as int * size && a.expanded <= bd.totalBytes as int + 1
    requires Breach(bd, size, e, a.expanded as int64) == Some(why)
    ensures EntryDone(bd, size, e, i, a, a.(left := a.left + [why]), false)
  {
    BreachIsExact(bd, size, e, a.expanded as int64);
    hide Breach, ReadsWell, StopSeen, CutShort, PanicMet, Taken, Read, Sound, Expansion;
  }

  lemma ReadDone(bd: Bounds, size: nat, e: Entry, i: nat, a: Tally, r: Reading)
    requires 0 <= a.expanded <= bd.ratio as int * size && Claims(bd, e, a.expanded)
    requires ReadAs(bd, e, bd.ratio as int * size - a.expanded, r)
    ensures !r.stopped && r.why.None? ==> ReadsWell(bd, e, bd.ratio as int * size - a.expanded)
    ensures var b := a.(expanded := a.expanded + r.n as int);
      && (r.why.Some? ==> !r.stopped && EntryDone(bd, size, e, i, a, b.(left := a.left + [r.why.value]), false))
      && (r.why.None? && (r.stopped || e.put.PutStopped?) ==> EntryDone(bd, size, e, i, a, b, true))
      && (r.why.None? && !r.stopped && e.put.PutFails? ==>
            EntryDone(bd, size, e, i, a, b.(left := a.left + [Problem]), false))
      && (r.why.None? && !r.stopped && e.put.PutDone? ==>
            EntryDone(bd, size, e, i, a, b.(placed := a.placed + [i], sizes := a.sizes + [Expansion(e)]), false))
  {
    assert ReadsWell(bd, e, bd.ratio as int * size - a.expanded) ==>
      !StopSeen(e) && !CutShort(e, bd.ratio as int * size - a.expanded) && Expansion(e) <= bd.ratio as int * e.data.pulled;
    hide ReadsWell, StopSeen, CutShort, PanicMet, Taken, Read, Sound, Expansion;
  }

  /** What a message's writer has extracted: the bytes counted as read through, the entries placed with their sizes, and
      the entries left out with why. */
  class Extractor {
    var expanded: int64
    var placed: seq<nat>
    var sizes: seq<nat>
    var left: seq<Why>
    ghost var read: nat

    constructor ()
      ensures expanded == 0 && placed == [] && sizes == [] && left == [] && read == 0
    {
      expanded, placed, sizes, left, read := 0, [], [], [], 0;
    }

    /** Over every zip the bytes counted stay within ratio times the zip's own size and within the total
        and one byte, the bytes placed within them; and those counted are all that were read where no
        entry panics. */
    ghost predicate Within(entries: seq<Entry>, bd: Bounds, size: nat)
      reads this
    {
      && 0 <= expanded as int <= bd.ratio as int * size && expanded as int <= bd.totalBytes as int + 1
      && ZipSpace.Sum(sizes) <= expanded as int <= read
      && (NonePanics(entries) ==> read == expanded as int)
      && PlacedSoundly(entries, placed, sizes, bd)
    }

    function View(): Tally
      reads this
    {
      Tally(expanded as int, placed, sizes, left)
    }

    /** One entry that is no directory. */
    method ExtractOne(entries: seq<Entry>, i: nat, bd: Bounds, size: nat) returns (stopped: bool)
      requires Sane(bd, size) && i < |entries| && !entries[i].isDir && Within(entries, bd, size)
      requires forall k :: 0 <= k < |placed| ==> placed[k] < i
      modifies this
      ensures Within(entries, bd, size)
      ensures if stopped then placed == old(placed) else |placed| + |left| == |old(placed)| + |old(left)| + 1
      ensures EntryDone(bd, size, entries[i], i, old(View()), View(), stopped)
      ensures forall k :: 0 <= k < |placed| ==> placed[k] < i + 1
    {
      hide PlacedSoundly, ZipSpace.Sum, Sound, Expansion, Taken, Cut, CutShort, StopSeen, Read, ReadsWell, PanicMet;
      hide Claims, Breach, EntryDone, WhyLeft, Sane, NonePanics, ReadAs;
      ghost var before := View();
      stopped := false;
      var e := entries[i];
      var why := Breach(bd, size, e, expanded);
      BreachIsExact(bd, size, e, expanded);
      ClaimsAre(bd, e, expanded as int);
      PanicsMet(entries, i, bd.ratio as int * size - expanded as int);
      SaneFits(bd, size);
      if why.Some? {
        left := left + [why.value];
        BreachLeft(bd, size, e, i, before, why.value);
        return;
      }
      var r, bytes := Expand(bd, size, e, expanded);
      expanded, read := expanded + r.n, read + bytes;
      ReadDone(bd, size, e, i, before, r);
      if r.why.Some? {
        left := left + [r.why.value];
        return;
      }
      if r.stopped || e.put.PutStopped? {
        return true;
      }
      if e.put.PutFails? {
        left := left + [Problem];
        return;
      }
      SumMore(sizes, r.n as int);
      PlaceMore(entries, placed, sizes, bd, i, before.expanded, bd.ratio as int * size - before.expanded);
      placed, sizes := placed + [i], sizes + [r.n as int];
    }

    /** zipEntries. */
    method ZipEntries(all: seq<Entry>, bd: Bounds, size: nat) returns (stopped: bool)
      requires Sane(bd, size) && expanded == 0 && placed == [] && sizes == [] && left == [] && read == 0
      modifies this
      ensures Within(all, bd, size) && |placed| <= bd.entries
      ensures !stopped ==> |placed| + |left| == FileCount(all[..Least(|all|, bd.entries)])
      ensures Ran(all[..Least(|all|, bd.entries)], bd, size, View(), stopped)
    {
      hide Sane, Ran, EntryDone;
      var entries := all[..Least(|all|, bd.entries)];
      stopped := false;
      NothingPlaced(all, bd, size);
      NoneRan(bd, size);
      assert entries[..0] == [];
      for i := 0 to |entries|
        invariant Within(all, bd, size) && |placed| <= i
        invariant forall k :: 0 <= k < |placed| ==> placed[k] < i
        invariant |placed| + |left| == FileCount(entries[..i])
        invariant Ran(entries[..i], bd, size, View(), false)
      {
        assert entries[..i + 1][..i] == entries[..i] && entries[i] == all[i];
        ghost var before := View();
        if all[i].stopBefore {
          StopBefore(entries, bd, size, i, before);
          return true;
        }
        if !all[i].isDir {
          stopped := ExtractOne(all, i, bd, size);
          PlacedUpTo(placed, i + 1);
          RanOne(entries, bd, size, i, before, View(), stopped);
          if stopped {
            return;
          }
        } else {
          RanDirectory(entries, bd, size, i, before);
        }
      }
      assert entries[..|entries|] == entries;
    }
  }

  // ---- a whole zip

  /** The entries gone through one after the other, up to one that stops the run: directories left out, each file
      done with. */
  ghost predicate Ran(entries: seq<Entry>, bd: Bounds, size: nat, t: Tally, stopped: bool)
    decreases |entries|
  {
    if entries == [] then t == Tally(0, [], [], []) && !stopped
    else
      var i := |entries| - 1;
      exists a: Tally, was: bool ::
        && Ran(entries[..i], bd, size, a, was)
        && (was ==> stopped && t == a)
        && (!was && entries[i].stopBefore ==> stopped && t == a)
        && (!was && !entries[i].stopBefore && entries[i].isDir ==> !stopped && t == a)
        && (!was && !entries[i].stopBefore && !entries[i].isDir ==>
              0 <= a.expanded <= bd.ratio as int * size && EntryDone(bd, size, entries[i], i, a, t, stopped))
  }

  lemma NoneRan(bd: Bounds, size: nat)
    ensures Ran([], bd, size, Tally(0, [], [], []), false)
  {
  }

  lemma {:induction false} RanStopped(entries: seq<Entry>, bd: Bounds, size: nat, i: nat, t: Tally)
    requires i <= |entries| && Ran(entries[..i], bd, size, t, true)
    ensures Ran(entries, bd, size, t, true)
    decreases |entries| - i
  {
    if i == |entries| {
      assert entries[..i] == entries;
    } else {
      assert entries[..i + 1][..i] == entries[..i];
      hide EntryDone;
      RanStopped(entries, bd, size, i + 1, t);
    }
  }

  lemma StopBefore(entries: seq<Entry>, bd: Bounds, size: nat, i: nat, t: Tally)
    requires i < |entries| && entries[i].stopBefore && Ran(entries[..i], bd, size, t, false)
    ensures Ran(entries, bd, size, t, true)
  {
    assert entries[..i + 1][..i] == entries[..i];
    hide EntryDone;
    RanStopped(entries, bd, size, i + 1, t);
  }

  lemma RanDirectory(entries: seq<Entry>, bd: Bounds, size: nat, i: nat, t: Tally)
    requires i < |entries| && !entries[i].stopBefore && entries[i].isDir && Ran(entries[..i], bd, size, t, false)
    ensures Ran(entries[..i + 1], bd, size, t, false)
  {
    assert entries[..i + 1][..i] == entries[..i];
    hide EntryDone;
  }

  lemma RanOne(entries: seq<Entry>, bd: Bounds, size: nat, i: nat, a: Tally, t: Tally, stopped: bool)
    requires i < |entries| && !entries[i].stopBefore && !entries[i].isDir && Ran(entries[..i], bd, size, a, false)
    requires 0 <= a.expanded <= bd.ratio as int * size && EntryDone(bd, size, entries[i], i, a, t, stopped)
    ensures Ran(entries[..i + 1], bd, size, t, stopped)
    ensures stopped ==> Ran(entries, bd, size, t, true)
  {
    assert entries[..i + 1][..i] == entries[..i];
    hide EntryDone;
    assert Ran(entries[..i + 1], bd, size, t, stopped);
    if stopped {
      RanStopped(entries, bd, size, i + 1, t);
    }
  }

  /** The bytes the file entries expand to. */
  function Expanded(entries: seq<Entry>): nat {
    if entries == [] then 0
    else Expanded(entries[..|entries| - 1]) + if entries[|entries| - 1].isDir then 0 else Expansion(entries[|entries| - 1])
  }

  /** The entry is what it says, within its own bounds, and neither stopped nor failing at the destination. */
  predicate IsFine(bd: Bounds, e: Entry) {
    && !e.encrypted && !e.stopBefore && !StopSeen(e) && Sound(e) && e.put.PutDone?
    && e.declared as int <= bd.entryBytes as int && e.declared as int <= bd.ratio as int * e.packed as int
    && Expansion(e) <= bd.ratio as int * e.data.pulled
  }

  /** And so are all, within the bounds on the whole zip. */
  ghost predicate AllFine(entries: seq<Entry>, bd: Bounds, size: nat) {
    && (forall i :: 0 <= i < |entries| ==> !entries[i].stopBefore)
    && (forall i :: 0 <= i < |entries| && !entries[i].isDir ==>
          IsFine(bd, entries[i]) && Expanded(entries[..i]) + entries[i].declared as int <= bd.totalBytes as int)
    && Expanded(entries) <= bd.ratio as int * size
  }

  lemma {:induction false} NotCut(chunks: seq<nat>, cap: nat, left: nat)
    requires Taken(chunks, cap, cap) <= left
    ensures !Cut(chunks, cap, left) && Taken(chunks, cap, left) == Taken(chunks, cap, cap)
  {
    if chunks != [] {
      NotCut(chunks[1..], cap - Least(chunks[0], cap), left - Least(chunks[0], cap));
    }
  }

  lemma FineFront(entries: seq<Entry>, bd: Bounds, size: nat)
    requires entries != [] && AllFine(entries, bd, size)
    ensures AllFine(entries[..|entries| - 1], bd, size)
  {
    hide IsFine, Expansion;
    var front := entries[..|entries| - 1];
    forall i | 0 <= i < |front| ensures front[i] == entries[i] && front[..i] == entries[..i] {
    }
  }

  lemma FineEntry(bd: Bounds, size: nat, e: Entry, i: nat, a: Tally, t: Tally, stopped: bool)
    requires IsFine(bd, e) && 0 <= a.expanded && a.expanded + Expansion(e) <= bd.ratio as int * size
    requires a.expanded + e.declared as int <= bd.totalBytes as int
    requires EntryDone(bd, size, e, i, a, t, stopped)
    ensures !stopped && t == Tally(a.expanded + Expansion(e), a.placed + [i], a.sizes + [Expansion(e)], a.left)
  {
    NotCut(e.data.chunks, e.declared as int + 1, bd.ratio as int * size - a.expanded);
    hide Cut, Taken;
  }

  lemma RanBack(entries: seq<Entry>, bd: Bounds, size: nat, t: Tally, stopped: bool) returns (a: Tally, was: bool)
    requires entries != [] && Ran(entries, bd, size, t, stopped) && !entries[|entries| - 1].stopBefore
    ensures var i := |entries| - 1;
      && Ran(entries[..i], bd, size, a, was)
      && (!was && entries[i].isDir ==> !stopped && t == a)
      && (!was && !entries[i].isDir ==>
            0 <= a.expanded <= bd.ratio as int * size && EntryDone(bd, size, entries[i], i, a, t, stopped))
  {
    hide EntryDone;
    var i := |entries| - 1;
    a, was :| Ran(entries[..i], bd, size, a, was)
      && (!was && entries[i].isDir ==> !stopped && t == a)
      && (!was && !entries[i].isDir ==>
            0 <= a.expanded <= bd.ratio as int * size && EntryDone(bd, size, entries[i], i, a, t, stopped));
  }

  /** A zip whose entries are all fine is extracted whole: no stop, nothing left out, every file placed with its
      size. */
  lemma {:induction false} FineIsWhole(entries: seq<Entry>, bd: Bounds, size: nat, t: Tally, stopped: bool)
    requires AllFine(entries, bd, size) && Ran(entries, bd, size, t, stopped)
    ensures !stopped && t.left == [] && |t.placed| == FileCount(entries) && t.expanded == Expanded(entries)
    ensures forall i :: 0 <= i < |entries| && !entries[i].isDir ==> i in t.placed
  {
    if entries != [] {
      var i := |entries| - 1;
      FineFront(entries, bd, size);
      var a, was := RanBack(entries, bd, size, t, stopped);
      hide Ran, IsFine, Expansion, EntryDone;
      FineIsWhole(entries[..i], bd, size, a, was);
      if !entries[i].isDir {
        FineEntry(bd, size, entries[i], i, a, t, stopped);
      }
      forall k | 0 <= k < i && !entries[k].isDir ensures k in a.placed {
        assert entries[..i][k] == entries[k];
      }
    }
  }

  lemma NothingPlaced(entries: seq<Entry>, bd: Bounds, size: nat)
    requires Sane(bd, size)
    ensures PlacedSoundly(entries, [], [], bd) && ZipSpace.Sum([]) == 0 && 0 <= bd.ratio as int * size && 0 <= bd.totalBytes
  {
  }

  lemma PlaceMore(entries: seq<Entry>, placed: seq<nat>, sizes: seq<nat>, bd: Bounds, i: nat, total: int, room: nat)
    requires PlacedSoundly(entries, placed, sizes, bd) && i < |entries|
    requires forall k :: 0 <= k < |placed| ==> placed[k] < i
    requires !entries[i].isDir && Claims(bd, entries[i], total) && ReadsWell(bd, entries[i], room)
    ensures PlacedSoundly(entries, placed + [i], sizes + [Expansion(entries[i])], bd)
  {
    hide Expansion;
  }

  /** Increasing places below i are at most i. */
  lemma {:induction false} PlacedUpTo(placed: seq<nat>, i: nat)
    requires forall j, k :: 0 <= j < k < |placed| ==> placed[j] < placed[k]
    requires forall k :: 0 <= k < |placed| ==> placed[k] < i
    ensures |placed| <= i
  {
    if placed != [] {
      PlacedUpTo(placed[..|placed| - 1], placed[|placed| - 1]);
    }
  }
}
