/** A ledger line past the cut: what a chain keeps and loses there, exactly, and a chain that gets there. Its
    line names every part, so a chain of enough parts does. */
module LedgerCut {
  import opened Ledger
  import opened SealChain
  import opened SealConvergence
  import opened SealEngine
  import opened SealStages
  import opened Wrappers

  // ---- what a seal resumes

  lemma {:induction false} LinesOfAre(ledger: seq<LedgerLine>, run: RunId, l: LedgerLine)
    ensures l in LinesOf(ledger, run) <==> l in ledger && l.run == run
  {
    if ledger != [] {
      LinesOfAre(ledger[..|ledger| - 1], run, l);
      assert ledger == ledger[..|ledger| - 1] + [ledger[|ledger| - 1]];
    }
  }

  lemma {:induction false} SetLinesAre(ledger: seq<LedgerLine>, c: ChainId, l: LedgerLine)
    ensures l in SetLines(ledger, c) <==> l in ledger && l.chain == c && l.setState != NoState
  {
    if ledger != [] {
      SetLinesAre(ledger[..|ledger| - 1], c, l);
      assert ledger == ledger[..|ledger| - 1] + [ledger[|ledger| - 1]];
    }
  }

  lemma RunsAre(lines: seq<LedgerLine>, run: RunId)
    ensures run in RunsOf(lines) <==> exists l :: l in lines && l.run == run
  {
    if run in RunsOf(lines) {
      var i :| 0 <= i < |lines| && RunsOf(lines)[i] == run;
      assert lines[i] in lines;
    }
  }

  /** A bare line stands in the ledger for the run. */
  ghost predicate HasBare(ledger: seq<LedgerLine>, run: RunId) {
    exists l :: l in LinesOf(ledger, run) && Bare(l)
  }

  /** A run's own line, if the ledger has one that carries a state. */
  lemma OwnSetLine(d: Disk, run: RunId, l: LedgerLine)
    requires Reachable(d) && run in d.records && l in d.ledger && l.run == run && l.setState != NoState
    ensures Sealed(d, run).Some? && LineFits(d, run) && !HasBare(d.ledger, run)
  {
    StagesReachable(d, run);
    OwnedTells(d, run);
    LinesOwned(d, run);
    LinesOfAre(d.ledger, run, l);
    hide Reachable, OwnedBy, Sealed, LinesOf, Readable, LedgerHas, JournalHasEnd;
    var o := OwnedBy(d, run);
    assert o.lines == [l];
  }

  lemma DoneLine(d: Disk, run: RunId)
    requires Reachable(d) && run in d.records && Sealed(d, run).Some? && !Due(d, run)
    requires LineFits(d, run) && !HasBare(d.ledger, run)
    ensures LedgerLineFrom(run, Sealed(d, run).value) in d.ledger && Sealed(d, run).value.setState.Saved?
  {
    StagesReachable(d, run);
    OwnedTells(d, run);
    LinesOwned(d, run);
    hide Reachable, OwnedBy, Sealed, LinesOf, Readable, LedgerHas, JournalHasEnd;
    var o := OwnedBy(d, run);
    assert o.lines[0] in LinesOf(d.ledger, run);
    LinesOfAre(d.ledger, run, o.lines[0]);
  }

  /** Once no line is due for a sealed part, the state its chain resumes holds it exactly when its line is one
      that can be read and no bare one took its place. */
  lemma ResumeHolds(d: Disk, run: RunId)
    requires Reachable(d) && run in d.records && Sealed(d, run).Some? && !Due(d, run)
    ensures run in Resume(d.ledger, d.records[run].chain).1 <==> LineFits(d, run) && !HasBare(d.ledger, run)
  {
    ReachableInv(d);
    var c := d.records[run].chain;
    var s := Sealed(d, run).value;
    assert ChainExact(SetLines(d.ledger, c)) && s.chain == c;
    hide SealChain.Inv, Reachable, Sealed, Due, LineFits, HasBare;
    ResumeIsWhole(d.ledger, c);
    RunsAre(SetLines(d.ledger, c), run);
    hide Resume, RunsOf, ChainExact;
    if l :| l in SetLines(d.ledger, c) && l.run == run {
      SetLinesAre(d.ledger, c, l);
      OwnSetLine(d, run, l);
    }
    if LineFits(d, run) && !HasBare(d.ledger, run) {
      DoneLine(d, run);
      SetLinesAre(d.ledger, c, LedgerLineFrom(run, s));
    }
  }

  /** So a seal holds the sums of exactly its chain's earlier seals whose lines can be read and were not taken
      by a bare one, and its own. */
  lemma SealHolds(d: Disk, run: RunId, p: Proposal, q: RunId)
    requires Reachable(d) && run in d.records && Sealed(d, run).None?
    requires Next(d, run, p) == Some(AppendSealed(run, SealedLineFor(d, run, p)))
    requires q in d.records && q != run && d.records[q].chain == d.records[run].chain && Sealed(d, q).Some?
    ensures q in SealedLineFor(d, run, p).parts <==> LineFits(d, q) && !HasBare(d.ledger, q)
  {
    ReachableInv(d);
    if Due(d, q) {
      NoneOwedAtSeal(d, run, p, q);
      assert false;
    }
    hide SealChain.Inv, Reachable, Sealed, Due, LineFits, HasBare, Next;
    ResumeHolds(d, q);
  }

  // ---- a line past the cut never lands

  lemma MovesKept(run: RunId, stamp: nat, a: Owned, b: Owned)
    requires Moves(run, stamp, a, b)
    ensures Kept(a, b)
  {
    hide MarkerAfter, LedgerLineFrom, EndFrom, Readable;
  }

  lemma {:induction false} TraceKept(d: Disk, events: seq<Event>, e: Disk, run: RunId)
    requires SealChain.Inv(d) && Trace(d, events, e) && run in d.records && run in e.records
    ensures Kept(OwnedBy(d, run), OwnedBy(e, run)) && e.stamp == d.stamp
    decreases |events|
  {
    if events != [] {
      var ev, m := events[0], Do(d, events[0]);
      InvIndexed(d);
      assert run in d.index;
      DeletedOnce(d, ev, run);
      InvStep(d, ev);
      if run !in m.records {
        DeletedStays(m, events[1..], e, run);
        assert false;
      }
      EventMoves(d, ev, run);
      if ev.MarkerChanged? && ev.run == run {
        assert OwnedBy(m, run) == OwnedBy(d, run).(marker := ev.marker);
      } else {
        MovesKept(run, d.stamp, OwnedBy(d, run), OwnedBy(m, run));
      }
      hide SealChain.Inv, Do, Enabled, OwnedBy, Moves;
      TraceKept(m, events[1..], e, run);
    }
  }

  lemma {:induction false} TraceReachable(d: Disk, events: seq<Event>, e: Disk)
    requires Reachable(d) && Trace(d, events, e)
    ensures Reachable(e)
    decreases |events|
  {
    if events != [] {
      var before :| Trace(NewDisk(d.stamp), before, d);
      TraceMore(NewDisk(d.stamp), before, d, events[0]);
      StampStays(d, events[0]);
      hide Do, Enabled;
      TraceReachable(Do(d, events[0]), events[1..], e);
    }
  }

  lemma StampStays(d: Disk, ev: Event)
    requires Enabled(d, ev)
    ensures Do(d, ev).stamp == d.stamp
  {
    hide FirstOwed, MarkerAfter, SealedLineFor;
  }

  /** A sealed part whose line is past the cut has no sealed ledger line, whatever happens from then on. */
  lemma CutNeverLands(d: Disk, events: seq<Event>, e: Disk, run: RunId)
    requires Reachable(d) && Trace(d, events, e) && run in d.records && run in e.records
    requires Sealed(d, run).Some? && !LineFits(d, run)
    ensures Sealed(e, run) == Sealed(d, run) && !HasSealedLine(e.ledger, run)
  {
    hide *;
    ReachableInv(d);
    TraceKept(d, events, e, run);
    TraceReachable(d, events, e);
    StagesReachable(d, run);
    StagesReachable(e, run);
    OwnedTells(d, run);
    OwnedTells(e, run);
    LinesOwned(e, run);
    KeptSeal(run, d.stamp, OwnedBy(d, run), OwnedBy(e, run));
    CutTells(d, run);
    NoSealedLine(e, run);
  }

  lemma CutTells(d: Disk, run: RunId)
    requires Sealed(d, run).Some?
    ensures LineFits(d, run) <==> Readable(LedgerLineFrom(run, Sealed(d, run).value), d.stamp)
  {
    hide Readable;
  }

  /** Nothing kept undoes a seal, and no line past the cut is a copy of it. */
  lemma KeptSeal(run: RunId, stamp: nat, a: Owned, b: Owned)
    requires Staged(run, stamp, a) && Staged(run, stamp, b) && Kept(a, b) && a.seals != []
    ensures b.seals == a.seals
    ensures !Readable(LedgerLineFrom(run, a.seals[0]), stamp) ==> forall l :: l in b.lines ==> Bare(l)
  {
    hide Readable, LedgerLineFrom, LineDone;
  }

  lemma NoSealedLine(d: Disk, run: RunId)
    requires forall l :: l in LinesOf(d.ledger, run) ==> Bare(l)
    ensures !HasSealedLine(d.ledger, run)
  {
    hide LinesOf;
  }

  // ---- a chain that gets there

  const CHAIN := "0123456789abcdef"

  lemma {:induction false} SixteenEach(parts: seq<RunId>)
    requires forall i :: 0 <= i < |parts| ==> |parts[i]| == 16
    ensures PartsBytes(parts) == 19 * |parts|
  {
    if parts != [] {
      SixteenEach(parts[..|parts| - 1]);
    }
  }

  /** How many parts a complete seal's line holds below the cut, their ids of 16 digits. */
  function MostParts(stamp: nat): nat
    requires stamp <= 35
  {
    (3658 - stamp) / 19
  }

  /** The status as a line has it. */
  function StatusWord(s: Status): string {
    match s
    case Complete => "complete"
    case Partial => "partial"
    case Cancelled => "cancelled"
    case Failed => "failed"
    case FinishedAsPartial => "finished-as-partial"
  }

  /** A line that only says what became of a run: it is never near the cut. */
  lemma BareBytes(l: LedgerLine, stamp: nat)
    requires |l.run| == 16 && |l.chain| == 16 && l.kind != SealedKind && l.parts == []
    requires l.status.None? && l.fingerprint.None? && l.setState == NoState && l.setFingerprint.None?
    ensures LineBytes(l, stamp) == 77 + stamp + if l.kind == GoneKind then |"gone"| else |"refused"|
    ensures stamp <= 35 ==> Readable(l, stamp)
  {
  }

  lemma SealedBytes(run: RunId, s: SealedLine, stamp: nat)
    requires |run| == 16 && |s.chain| == 16 && s.setState.Saved? && s.parts != []
    requires forall i :: 0 <= i < |s.parts| ==> |s.parts[i]| == 16
    ensures LineBytes(LedgerLineFrom(run, s), stamp) == 430 + |StatusWord(s.status)| + stamp + 19 * |s.parts|
    ensures s.status == Complete && stamp <= 35 ==>
              (Readable(LedgerLineFrom(run, s), stamp) <==> |s.parts| <= MostParts(stamp))
  {
    SixteenEach(s.parts);
    hide PartsBytes;
  }

  ghost predicate NoneDue(d: Disk) { forall r :: !Due(d, r) }

  lemma NoneOwed(d: Disk, c: ChainId, self: RunId)
    requires forall r :: Due(d, r) ==> r == self
    ensures FirstOwed(d, c, self, 0) == |d.index|
  {
    hide Due;
  }

  lemma ReachableStep(d: Disk, ev: Event)
    requires Reachable(d) && Enabled(d, ev)
    ensures Reachable(Do(d, ev))
  {
    var before :| Trace(NewDisk(d.stamp), before, d);
    TraceMore(NewDisk(d.stamp), before, d, ev);
    StampStays(d, ev);
  }

  lemma Created(d: Disk, run: RunId)
    requires Indexed(d) && NoneDue(d) && run !in d.index
    ensures var e := Do(d, Create(run, CHAIN, None));
      && Sealed(e, run).None? && NoneDue(e) && forall r :: r != run ==> Sealed(e, r) == Sealed(d, r)
  {
    var e := Do(d, Create(run, CHAIN, None));
    assert run !in d.records;
    assert Sealed(e, run).None?;
    assert forall r :: r != run ==> Sealed(e, r) == Sealed(d, r);
    hide Readable, SealOf, LedgerHas;
    forall r ensures !Due(e, r) {
      assert !Due(d, r);
    }
  }

  lemma SealIsNext(d: Disk, run: RunId, p: Proposal)
    requires run in d.records && NoneDue(d) && Sealed(d, run).None?
    ensures Next(d, run, p) == Some(AppendSealed(run, SealedLineFor(d, run, p)))
  {
    NoneOwed(d, d.records[run].chain, run);
    hide NoneDue, FirstOwed, SealedLineFor, Sealed;
  }

  lemma SealNew(d: Disk, run: RunId, p: Proposal)
    requires run in d.records && d.records[run] == Record(CHAIN, []) && NoneDue(d)
    ensures var s := SealedLineFor(d, run, p);
      var e := AppendToRecord(d, run, SealedRec(s));
      && e.records == d.records[run := Record(CHAIN, [SealedRec(s)])] && Sealed(e, run) == Some(s)
      && (forall r :: Due(e, r) ==> r == run) && forall r :: r != run ==> Sealed(e, r) == Sealed(d, r)
  {
    var s := SealedLineFor(d, run, p);
    SealFrame(d, run, s);
    hide SealedLineFor;
    assert [] + [SealedRec(s)] == [SealedRec(s)];
    forall r | r != run
      ensures Sealed(AppendToRecord(d, run, SealedRec(s)), r) == Sealed(d, r)
      ensures !Due(AppendToRecord(d, run, SealedRec(s)), r)
    {
      OthersFrame(d, run, SealedRec(s), r);
      assert !Due(d, r);
    }
  }

  lemma SealedFields(d: Disk, run: RunId, p: Proposal)
    requires run in d.records
    ensures var s := SealedLineFor(d, run, p);
      && s.status == p.status && s.chain == d.records[run].chain && s.setState.Saved?
      && s.parts == Resume(d.ledger, d.records[run].chain).1 + [run]
  {
    hide Resume;
  }

  /** One more part of the chain, created and sealed. */
  lemma SealOneMore(d: Disk, run: RunId, p: Proposal) returns (e: Disk, s: SealedLine)
    requires Reachable(d) && NoneDue(d) && run !in d.index
    ensures Reachable(e) && e.stamp == d.stamp && e.ledger == d.ledger && e.index == d.index + [run]
    ensures e.records == d.records[run := Record(CHAIN, [SealedRec(s)])] && Sealed(e, run) == Some(s)
    ensures s.status == p.status && s.chain == CHAIN && s.setState.Saved?
    ensures s.parts == Resume(d.ledger, CHAIN).1 + [run]
    ensures forall r :: Due(e, r) ==> r == run
    ensures forall r :: r != run ==> Sealed(e, r) == Sealed(d, r)
  {
    var d1 := Do(d, Create(run, CHAIN, None));
    ReachableStep(d, Create(run, CHAIN, None));
    ReachableInv(d);
    InvIndexed(d);
    hide Reachable, SealChain.Inv, Indexed, NoneDue, Sealed, Due, SealedLineFor, Next;
    Created(d, run);
    s := SealedLineFor(d1, run, p);
    e := AppendToRecord(d1, run, SealedRec(s));
    SealIsNext(d1, run, p);
    SealNew(d1, run, p);
    SealedFields(d1, run, p);
    assert Enabled(d1, SealStep(run, p)) && Do(d1, SealStep(run, p)) == e;
    ReachableStep(d1, SealStep(run, p));
  }

  /** Its ledger line, where that can be read. */
  lemma LineOneMore(d: Disk, run: RunId, p: Proposal) returns (e: Disk)
    requires Reachable(d) && Due(d, run) && forall r :: Due(d, r) ==> r == run
    ensures Reachable(e) && NoneDue(e)
    ensures e == d.(ledger := d.ledger + [LedgerLineFrom(run, Sealed(d, run).value)])
  {
    var l := LedgerLineFrom(run, Sealed(d, run).value);
    e := d.(ledger := d.ledger + [l]);
    assert l.run == run && Next(d, run, p) == Some(AppendLedger(l));
    assert Enabled(d, SealStep(run, p)) && Do(d, SealStep(run, p)) == e;
    ReachableStep(d, SealStep(run, p));
    hide Reachable, Enabled, Do, Next, SealOf, Readable, LedgerLineFrom;
    forall r ensures !Due(e, r) {
      LedgerHasGrows(d.ledger, l, r);
      assert Sealed(e, r) == Sealed(d, r);
      assert r != run ==> !Due(d, r);
    }
  }

  /** The chain with so many parts, all of them finished as far as the ledger goes. */
  ghost predicate ChainOf(d: Disk, ids: seq<RunId>, n: nat)
    requires n <= |ids|
  {
    && Reachable(d) && NoneDue(d) && d.index == ids[..n] && Resume(d.ledger, CHAIN).1 == ids[..n]
  }

  ghost predicate DigitIds(ids: seq<RunId>) {
    && (forall i :: 0 <= i < |ids| ==> |ids[i]| == 16)
    && (forall i, j :: 0 <= i < j < |ids| ==> ids[i] != ids[j])
  }

  lemma {:induction false} ChainGrows(ids: seq<RunId>, n: nat, stamp: nat, p: Proposal) returns (d: Disk)
    requires DigitIds(ids) && stamp <= 35 && n <= MostParts(stamp) && n <= |ids| && p.status == Complete
    ensures ChainOf(d, ids, n) && d.stamp == stamp
  {
    if n == 0 {
      d := NewDisk(stamp);
      assert Trace(d, [], d);
    } else {
      var c := ChainGrows(ids, n - 1, stamp, p);
      var run := ids[n - 1];
      var e, s := SealOneMore(c, run, p);
      assert ids[..n - 1] + [run] == ids[..n];
      SealedBytes(run, s, stamp);
      hide Reachable, NoneDue, SealOf, LineBytes;
      NotYet(c, e, run);
      d := LineOneMore(e, run, p);
      ResumeLast(e.ledger, run, s);
    }
  }

  /** A run just created has no ledger line. */
  lemma NotYet(d: Disk, e: Disk, run: RunId)
    requires Reachable(d) && run !in d.index && e.ledger == d.ledger
    ensures !LedgerHas(e.ledger, run)
  {
    ReachableInv(d);
  }

  lemma ResumeLast(ledger: seq<LedgerLine>, run: RunId, s: SealedLine)
    requires s.setState.Saved?
    ensures Resume(ledger + [LedgerLineFrom(run, s)], s.chain).1 == s.parts
  {
    assert (ledger + [LedgerLineFrom(run, s)])[..|ledger|] == ledger;
  }

  /** After so many parts, 190 or 191 of them by the length of a time, two more seal and neither gets a line:
      both are owed one at once, the second's set state leaves the first out, and to run either again
      finishes it without a line. */
  lemma CutShows(ids: seq<RunId>, stamp: nat, p: Proposal) returns (d: Disk)
    requires stamp <= 35 && p.status == Complete && DigitIds(ids) && |ids| == MostParts(stamp) + 2
    ensures var q, r := ids[|ids| - 2], ids[|ids| - 1];
      && Reachable(d) && d.stamp == stamp && Pending(d, q) && Pending(d, r)
      && d.records[q].chain == d.records[r].chain == CHAIN
      && !LineFits(d, q) && !LineFits(d, r) && q !in Sealed(d, r).value.parts
      && !LedgerHas(Finish(d, q, p).ledger, q) && !LedgerHas(Finish(d, r, p).ledger, r)
  {
    var n := |ids| - 2;
    var q, r := ids[n], ids[n + 1];
    var c := ChainGrows(ids, n, stamp, p);
    var e, s := SealOneMore(c, q, p);
    assert ids[..n] + [q] == ids[..n + 1];
    SealedBytes(q, s, stamp);
    hide Reachable, SealOf, LineBytes, NoneDue, Resume, Finish;
    NotYet(c, e, q);
    assert !LineFits(e, q);
    NotDueNow(e, q);
    var t;
    d, t := SealOneMore(e, r, p);
    SealedBytes(r, t, stamp);
    NotYet(e, d, r);
    NotFinished(d, q, p);
    NotFinished(d, r, p);
  }

  lemma NotDueNow(d: Disk, run: RunId)
    requires (forall r :: Due(d, r) ==> r == run) && Sealed(d, run).Some? && !LineFits(d, run)
    ensures NoneDue(d)
  {
    hide Sealed, Readable, LedgerHas;
  }

  lemma NotFinished(d: Disk, run: RunId, p: Proposal)
    requires Pending(d, run) && !LineFits(d, run)
    ensures !LedgerHas(Finish(d, run, p).ledger, run)
  {
    LinesOfAfter(d, run, p, Rank(d, run));
    hide LinesOf, Readable, LedgerHas, Sealed;
  }
}
