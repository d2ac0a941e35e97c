/** The retry chain's ledger over every interleaving of seals, crashes, reconciliations and
    "this folder is gone".

    A seal holds the ledger mutex from its first read to its last append, so its guards and effects
    are one step here; a crash is an attempt that takes no further step. */
module SealChain {
  import opened Wrappers
  import opened Ledger
  import opened SealEngine
  import opened SealConvergence

  datatype Event =
    | Create(run: RunId, chain: ChainId, marker: Option<Marker>)
    | Refuse(run: RunId)
    | SealStep(run: RunId, p: Proposal)
    | Backfill(run: RunId)
    | GoneInRecord(run: RunId)
    | GoneInLedger(run: RunId)
    | DeleteRecord(run: RunId)
    | MarkerChanged(run: RunId, marker: Option<Marker>)

  function BareLine(d: Disk, run: RunId, kind: LineKind): LedgerLine
    requires run in d.records
  {
    LedgerLine(run, d.records[run].chain, kind, None, None, NoState, None, [])
  }

  /** What may happen: a run id is new when it is created, a start is refused before anything of the
      run is finished, a gone line goes only where the ledger has none, and a record is deleted only
      after its ledger line exists. */
  predicate Enabled(d: Disk, e: Event) {
    match e
    case Create(run, _, _) => run !in d.index
    case Refuse(run) => run in d.records && d.records[run].lines == [] && !LedgerHas(d.ledger, run)
    case SealStep(run, p) => run in d.records && Next(d, run, p).Some?
    case Backfill(run) => Pending(d, run)
    case GoneInRecord(run) => run in d.records
    case GoneInLedger(run) => run in d.records && GoneRec in d.records[run].lines && !LedgerHas(d.ledger, run)
    case DeleteRecord(run) => run in d.records && LedgerHas(d.ledger, run)
    case MarkerChanged(run, _) => true
  }

  function Do(d: Disk, e: Event): Disk
    requires Enabled(d, e)
  {
    match e
    case Create(run, chain, m) =>
      d.(records := d.records[run := Record(chain, [])], index := d.index + [run], markers := d.markers[run := m])
    case Refuse(run) => d.(ledger := WithLine(d, BareLine(d, run, RefusedKind)))
    case SealStep(run, p) => Apply(d, Next(d, run, p).value)
    case Backfill(run) => d.(ledger := WithLine(d, LedgerLineFrom(run, Sealed(d, run).value)))
    case GoneInRecord(run) => AppendToRecord(d, run, GoneRec)
    case GoneInLedger(run) => d.(ledger := WithLine(d, BareLine(d, run, GoneKind)))
    case DeleteRecord(run) => d.(records := d.records - {run})
    case MarkerChanged(run, m) => d.(markers := d.markers[run := m])
  }

  function NewDisk(stamp: nat): Disk { Disk(map[], [], [], [], map[], stamp) }

  /** A trace: each event enabled where it happens. */
  ghost predicate Trace(d: Disk, events: seq<Event>, end: Disk)
    decreases |events|
  {
    if events == [] then d == end else Enabled(d, events[0]) && Trace(Do(d, events[0]), events[1..], end)
  }

  ghost predicate Reachable(d: Disk) {
    exists events :: Trace(NewDisk(d.stamp), events, d)
  }

  // ---- a chain's lines

  /** The lines of a chain that carry a set state, oldest first. */
  function SetLines(ledger: seq<LedgerLine>, chain: ChainId): seq<LedgerLine> {
    if ledger == [] then []
    else
      var last := ledger[|ledger| - 1];
      SetLines(ledger[..|ledger| - 1], chain) + (if last.chain == chain && last.setState != NoState then [last] else [])
  }

  function RunsOf(lines: seq<LedgerLine>): (r: seq<RunId>)
    ensures |r| == |lines|
    ensures forall i :: 0 <= i < |lines| ==> r[i] == lines[i].run
  {
    if lines == [] then [] else RunsOf(lines[..|lines| - 1]) + [lines[|lines| - 1].run]
  }

  /** The SHA256SUMS.txt text a part's own fingerprint stands for. */
  function SumsOf(l: LedgerLine): string {
    if l.fingerprint.Some? then l.fingerprint.value.absorbed else ""
  }

  function Absorbed(lines: seq<LedgerLine>): string {
    if lines == [] then "" else Absorbed(lines[..|lines| - 1]) + SumsOf(lines[|lines| - 1])
  }

  /** The last of these lines saves the hash state of the sums of exactly these lines' runs, in
      this order, and names those runs. */
  predicate Exact(lines: seq<LedgerLine>)
    requires lines != []
  {
    var last := lines[|lines| - 1];
    && last.fingerprint.Some?
    && last.parts == RunsOf(lines)
    && last.setState == Saved(Absorbed(lines))
    && last.setFingerprint == Some(Sha256(Absorbed(lines)))
  }

  ghost predicate ChainExact(lines: seq<LedgerLine>) {
    forall n :: 1 <= n <= |lines| ==> Exact(lines[..n])
  }

  /** A seal that adds one part to what the chain's lines hold. */
  predicate Extends(lines: seq<LedgerLine>, run: RunId, s: SealedLine) {
    && s.parts == RunsOf(lines) + [run]
    && s.setState == Saved(Absorbed(lines) + s.fingerprint.absorbed)
    && s.setFingerprint == Sha256(Absorbed(lines) + s.fingerprint.absorbed)
  }

  ghost predicate Indexed(d: Disk) {
    && (forall r :: r in d.records ==> r in d.index)
    && (forall i :: 0 <= i < |d.ledger| ==> d.ledger[i].run in d.index)
  }

  ghost predicate OncePerRun(ledger: seq<LedgerLine>) {
    forall i, j :: 0 <= i < j < |ledger| ==> ledger[i].run != ledger[j].run
  }

  ghost predicate ChainsOfSeals(d: Disk) {
    forall r :: r in d.records && Sealed(d, r).Some? ==> Sealed(d, r).value.chain == d.records[r].chain
  }

  ghost predicate OneDue(d: Disk) {
    forall q, r :: Due(d, q) && Due(d, r) && d.records[q].chain == d.records[r].chain ==> q == r
  }

  ghost predicate AllExact(ledger: seq<LedgerLine>) {
    forall c: ChainId :: ChainExact(SetLines(ledger, c))
  }

  ghost predicate DueExtend(d: Disk) {
    forall r :: Due(d, r) ==> Extends(SetLines(d.ledger, d.records[r].chain), r, Sealed(d, r).value)
  }

  ghost predicate SealedOnce(d: Disk) {
    forall r :: r in d.records ==> |SealsIn(d.records[r].lines)| <= 1
  }

  ghost predicate Inv(d: Disk) {
    && Indexed(d) && OncePerRun(d.ledger) && ChainsOfSeals(d) && OneDue(d) && AllExact(d.ledger)
    && DueExtend(d) && SealedOnce(d)
  }

  // ---- one appended line

  lemma SetLinesAppended(ledger: seq<LedgerLine>, l: LedgerLine, c: ChainId)
    ensures SetLines(ledger + [l], c)
      == SetLines(ledger, c) + (if l.chain == c && l.setState != NoState then [l] else [])
  {
    assert (ledger + [l])[..|ledger|] == ledger;
  }

  lemma ExactAppended(lines: seq<LedgerLine>, run: RunId, s: SealedLine)
    requires ChainExact(lines) && Extends(lines, run, s)
    ensures ChainExact(lines + [LedgerLineFrom(run, s)])
  {
    var more := lines + [LedgerLineFrom(run, s)];
    assert more[..|lines|] == lines;
    forall n | 1 <= n <= |more| ensures Exact(more[..n]) {
      if n <= |lines| {
        assert more[..n] == lines[..n];
      } else {
        assert more[..n] == more;
        assert RunsOf(more) == RunsOf(lines) + [run];
      }
    }
  }

  /** Resuming from the ledger gives the whole of what the chain's lines hold. */
  lemma {:induction false} ResumeIsWhole(ledger: seq<LedgerLine>, c: ChainId)
    requires ChainExact(SetLines(ledger, c))
    ensures Resume(ledger, c) == (Absorbed(SetLines(ledger, c)), RunsOf(SetLines(ledger, c)))
  {
    if ledger != [] {
      var front, last := ledger[..|ledger| - 1], ledger[|ledger| - 1];
      var lines := SetLines(ledger, c);
      if last.chain == c && last.setState != NoState {
        assert lines[..|lines|] == lines;
        assert Exact(lines[..|lines|]);
      } else {
        assert lines == SetLines(front, c);
        ResumeIsWhole(front, c);
      }
    }
  }

  // ---- the invariant

  lemma AllExactAppended(d: Disk, l: LedgerLine)
    requires AllExact(d.ledger) && DueExtend(d) && ChainsOfSeals(d)
    requires l.setState == NoState
      || (Due(d, l.run) && l == LedgerLineFrom(l.run, Sealed(d, l.run).value))
    ensures AllExact(d.ledger + [l])
  {
    hide SetLines;
    hide ChainExact;
    forall c: ChainId ensures ChainExact(SetLines(d.ledger + [l], c)) {
      SetLinesAppended(d.ledger, l, c);
      if l.chain == c && l.setState != NoState {
        ExactAppended(SetLines(d.ledger, c), l.run, Sealed(d, l.run).value);
      } else {
        assert SetLines(d.ledger + [l], c) == SetLines(d.ledger, c);
      }
    }
  }

  lemma InvAppendLine(d: Disk, l: LedgerLine, e: Disk)
    requires Inv(d) && e == d.(ledger := d.ledger + [l])
    requires !LedgerHas(d.ledger, l.run) && l.run in d.index
    requires l.setState == NoState
      || (Due(d, l.run) && l == LedgerLineFrom(l.run, Sealed(d, l.run).value))
    ensures Inv(e)
  {
    hide SetLines;
    hide SealOf;
    hide SealsIn;
    hide Extends;
    forall r | r in d.records ensures LedgerHas(e.ledger, r) <==> LedgerHas(d.ledger, r) || l.run == r {
      LedgerHasGrows(d.ledger, l, r);
    }
    forall i, j | 0 <= i < j < |e.ledger| ensures e.ledger[i].run != e.ledger[j].run {
      if j == |d.ledger| {
        assert e.ledger[i] == d.ledger[i];
      }
    }
    AllExactAppended(d, l);
    forall r | Due(e, r) ensures Extends(SetLines(e.ledger, e.records[r].chain), r, Sealed(e, r).value) {
      LedgerHasGrows(d.ledger, l, r);
      OtherPendingKept(d, l, r);
    }
  }

  lemma InvWithLine(d: Disk, l: LedgerLine)
    requires Inv(d) && !LedgerHas(d.ledger, l.run) && l.run in d.index
    requires l.setState == NoState
      || (Pending(d, l.run) && l == LedgerLineFrom(l.run, Sealed(d, l.run).value))
    ensures Inv(d.(ledger := WithLine(d, l)))
  {
    if Fits(d, l) {
      InvAppendLine(d, l, d.(ledger := d.ledger + [l]));
    } else {
      assert d.(ledger := d.ledger) == d;
    }
    hide Inv, LedgerHas, Fits;
  }

  /** A line added for one part of a chain is not one that another part still waits to extend. */
  lemma OtherPendingKept(d: Disk, l: LedgerLine, r: RunId)
    requires OneDue(d) && ChainsOfSeals(d) && Due(d, r) && r != l.run
    requires l.setState == NoState
      || (Due(d, l.run) && l == LedgerLineFrom(l.run, Sealed(d, l.run).value))
    ensures SetLines(d.ledger + [l], d.records[r].chain) == SetLines(d.ledger, d.records[r].chain)
  {
    hide SetLines;
    hide Sealed;
    var c := d.records[r].chain;
    SetLinesAppended(d.ledger, l, c);
    assert l.setState != NoState ==> l.run in d.records && d.records[l.run].chain == l.chain;
    assert SetLines(d.ledger, c) + [] == SetLines(d.ledger, c);
  }

  lemma SealedElsewhere(d: Disk, e: Disk)
    requires Inv(d) && e.ledger == d.ledger && e.index == d.index && e.stamp == d.stamp
    requires forall r :: r in e.records ==> r in d.records && e.records[r] == d.records[r]
    ensures Inv(e)
  {
    forall r | r in e.records ensures Sealed(e, r) == Sealed(d, r) && (Due(e, r) <==> Due(d, r)) {
    }
  }

  lemma NextSealExtends(d: Disk, run: RunId, p: Proposal)
    requires AllExact(d.ledger) && run in d.records
    ensures Extends(SetLines(d.ledger, d.records[run].chain), run, SealedLineFor(d, run, p))
  {
    ResumeIsWhole(d.ledger, d.records[run].chain);
  }

  /** A seal comes only when no other part of its chain is owed a ledger line. */
  lemma NoneOwedAtSeal(d: Disk, run: RunId, p: Proposal, r: RunId)
    requires Indexed(d) && run in d.records && Sealed(d, run).None?
    requires Next(d, run, p) == Some(AppendSealed(run, SealedLineFor(d, run, p)))
    requires r != run && Due(d, r)
    ensures d.records[r].chain != d.records[run].chain
  {
    var i :| 0 <= i < |d.index| && d.index[i] == r;
    assert Owed(d, d.index[i], d.records[run].chain, run) <==> d.records[r].chain == d.records[run].chain;
  }

  lemma SealFrame(d: Disk, run: RunId, s: SealedLine)
    requires run in d.records && Sealed(d, run).None?
    ensures var e := AppendToRecord(d, run, SealedRec(s));
      && Sealed(e, run) == Some(s) && e.records[run].chain == d.records[run].chain
      && SealsIn(e.records[run].lines) == [s]
  {
    SealOfAppended(d.records[run].lines, s);
    SealOfSeals(d.records[run].lines);
    SealsAppended(d.records[run].lines, s);
  }

  lemma OthersFrame(d: Disk, run: RunId, line: RecordLine, r: RunId)
    requires run in d.records && r != run
    ensures var e := AppendToRecord(d, run, line);
      && (r in d.records ==> e.records[r] == d.records[r])
      && Sealed(e, r) == Sealed(d, r) && (Due(e, r) <==> Due(d, r))
  {
  }

  lemma InvSeal(d: Disk, run: RunId, p: Proposal)
    requires Inv(d) && run in d.records && Sealed(d, run).None?
    requires Next(d, run, p) == Some(AppendSealed(run, SealedLineFor(d, run, p)))
    ensures Inv(AppendToRecord(d, run, SealedRec(SealedLineFor(d, run, p))))
  {
    var s := SealedLineFor(d, run, p);
    var e := AppendToRecord(d, run, SealedRec(s));
    SealFrame(d, run, s);
    NextSealExtends(d, run, p);
    assert s.chain == d.records[run].chain;
    forall r | r != run
      ensures r in d.records ==> e.records[r] == d.records[r]
      ensures Sealed(e, r) == Sealed(d, r) && (Due(e, r) <==> Due(d, r))
    {
      OthersFrame(d, run, SealedRec(s), r);
    }
    forall r | r != run && Due(d, r) ensures d.records[r].chain != d.records[run].chain {
      NoneOwedAtSeal(d, run, p, r);
    }
    InvSealed(d, run, s, e);
  }

  lemma InvSealed(d: Disk, run: RunId, s: SealedLine, e: Disk)
    requires Inv(d) && run in d.records && e.ledger == d.ledger && e.index == d.index
    requires e.records.Keys == d.records.Keys
    requires Sealed(e, run) == Some(s) && e.records[run].chain == d.records[run].chain == s.chain
    requires SealsIn(e.records[run].lines) == [s]
    requires forall r :: r != run && r in d.records ==> e.records[r] == d.records[r]
    requires forall r :: r != run ==> Sealed(e, r) == Sealed(d, r)
    requires forall r :: r != run ==> (Due(e, r) <==> Due(d, r))
    requires forall r :: r != run && Due(d, r) ==> d.records[r].chain != d.records[run].chain
    requires Extends(SetLines(d.ledger, d.records[run].chain), run, s)
    ensures Inv(e)
  {
    hide Sealed;
    hide SetLines;
    hide SealsIn;
    hide Extends;
    assert SealedOnce(e) && ChainsOfSeals(e);
    assert DueExtend(e);
  }

  lemma InvSealStep(d: Disk, run: RunId, p: Proposal)
    requires Inv(d) && run in d.records && Next(d, run, p).Some?
    ensures Inv(Apply(d, Next(d, run, p).value))
  {
    var e := Next(d, run, p).value;
    match e
    case AppendSealed(_, s) => InvSeal(d, run, p);
    case AppendLedger(l) => InvAppendLine(d, l, Apply(d, e));
    case PutMarker(_, _) => SealedElsewhere(d, Apply(d, e));
    case AppendEnd(_) => SealedElsewhere(d, Apply(d, e));
  }

  lemma GoneKeepsSeals(d: Disk, run: RunId, r: RunId)
    requires run in d.records
    ensures var e := AppendToRecord(d, run, GoneRec);
      && Sealed(e, r) == Sealed(d, r) && (Due(e, r) <==> Due(d, r))
      && (r in d.records ==> SealsIn(e.records[r].lines) == SealsIn(d.records[r].lines)
                             && e.records[r].chain == d.records[r].chain)
  {
    var lines := d.records[run].lines;
    assert (lines + [GoneRec])[..|lines|] == lines;
  }

  lemma InvGoneInRecord(d: Disk, run: RunId)
    requires Inv(d) && run in d.records
    ensures Inv(AppendToRecord(d, run, GoneRec))
  {
    var e := AppendToRecord(d, run, GoneRec);
    forall r
      ensures Sealed(e, r) == Sealed(d, r) && (Due(e, r) <==> Due(d, r))
      ensures r in d.records ==> SealsIn(e.records[r].lines) == SealsIn(d.records[r].lines)
      ensures r in d.records ==> e.records[r].chain == d.records[r].chain
    {
      GoneKeepsSeals(d, run, r);
    }
    hide SetLines;
    hide SealsIn;
    hide Sealed;
    hide LedgerHas;
    hide Extends;
  }

  lemma InvCreate(d: Disk, run: RunId, chain: ChainId, m: Option<Marker>)
    requires Inv(d) && run !in d.index
    ensures Inv(Do(d, Create(run, chain, m)))
  {
    var e := Do(d, Create(run, chain, m));
    forall r | r in d.records ensures Sealed(e, r) == Sealed(d, r) && (Due(e, r) <==> Due(d, r)) {
    }
    assert Sealed(e, run).None? && SealsIn(e.records[run].lines) == [];
    hide Sealed, Due, SealsIn, SetLines, Extends, LedgerHas, ChainExact;
  }

  lemma InvStep(d: Disk, ev: Event)
    requires Inv(d) && Enabled(d, ev)
    ensures Inv(Do(d, ev))
  {
    match ev
    case Create(run, chain, m) => InvCreate(d, run, chain, m);
    case Refuse(run) => InvWithLine(d, BareLine(d, run, RefusedKind));
    case SealStep(run, p) => InvSealStep(d, run, p);
    case Backfill(run) => InvWithLine(d, LedgerLineFrom(run, Sealed(d, run).value));
    case GoneInRecord(run) => InvGoneInRecord(d, run);
    case GoneInLedger(run) => InvWithLine(d, BareLine(d, run, GoneKind));
    case DeleteRecord(run) => SealedElsewhere(d, Do(d, ev));
    case MarkerChanged(run, m) => SealedElsewhere(d, Do(d, ev));
  }

  lemma {:induction false} InvTrace(d: Disk, events: seq<Event>, end: Disk)
    requires Inv(d) && Trace(d, events, end)
    ensures Inv(end)
    decreases |events|
  {
    if events != [] {
      InvStep(d, events[0]);
      InvTrace(Do(d, events[0]), events[1..], end);
    }
  }

  lemma ReachableInv(d: Disk)
    requires Reachable(d)
    ensures Inv(d)
  {
    var events :| Trace(NewDisk(d.stamp), events, d);
    InvTrace(NewDisk(d.stamp), events, d);
  }

  // ---- what a reader of the ledger may rely on

  lemma {:induction false} SetLinesDistinct(ledger: seq<LedgerLine>, c: ChainId)
    requires OncePerRun(ledger)
    ensures OncePerRun(SetLines(ledger, c))
    ensures forall l :: l in SetLines(ledger, c) ==> l in ledger
  {
    if ledger != [] {
      var front := ledger[..|ledger| - 1];
      SetLinesDistinct(front, c);
      forall l | l in SetLines(front, c) ensures l.run != ledger[|ledger| - 1].run {
        var i :| 0 <= i < |front| && front[i] == l;
        assert ledger[i] == l;
      }
    }
  }

  /** Every set state in the ledger is the hash state of the sums of exactly its duplicate-free parts
      in seal order, and each later line of a chain extends each earlier one. */
  lemma SetStatesAreExact(d: Disk, c: ChainId, i: nat, j: nat)
    requires Reachable(d)
    requires i <= j < |SetLines(d.ledger, c)|
    ensures var lines := SetLines(d.ledger, c);
      && lines[j].parts == RunsOf(lines[..j + 1])
      && lines[j].setState == Saved(Absorbed(lines[..j + 1]))
      && lines[j].setFingerprint == Some(Sha256(Absorbed(lines[..j + 1])))
      && (forall a, b :: 0 <= a < b < |lines[j].parts| ==> lines[j].parts[a] != lines[j].parts[b])
      && lines[i].parts == lines[j].parts[..i + 1]
  {
    ReachableInv(d);
    var lines := SetLines(d.ledger, c);
    SetLinesDistinct(d.ledger, c);
    assert Exact(lines[..i + 1]) && Exact(lines[..j + 1]);
    assert RunsOf(lines[..i + 1]) == RunsOf(lines[..j + 1])[..i + 1];
  }

  /** At most one sealed part of a chain is due a ledger line, and it has at most one seal. */
  lemma AtMostOneDue(d: Disk, q: RunId, r: RunId)
    requires Reachable(d) && Due(d, q) && Due(d, r) && d.records[q].chain == d.records[r].chain
    ensures q == r && |SealsIn(d.records[q].lines)| == 1
  {
    ReachableInv(d);
    SealOfSeals(d.records[q].lines);
  }

  /** The line a pending run waits for is one that can be read. */
  predicate LineFits(d: Disk, run: RunId)
    requires Sealed(d, run).Some?
  {
    Fits(d, LedgerLineFrom(run, Sealed(d, run).value))
  }

  /** Two sealed parts of one chain lack their ledger lines only where one of the lines is past the cut. */
  lemma AtMostOneOwed(d: Disk, q: RunId, r: RunId)
    requires Reachable(d) && Pending(d, q) && Pending(d, r) && d.records[q].chain == d.records[r].chain
    ensures q == r || !LineFits(d, q) || !LineFits(d, r)
  {
    if LineFits(d, q) && LineFits(d, r) {
      AtMostOneDue(d, q, r);
    }
  }

  /** The retry set as the history shows it: the newest line of the chain with a set state. */
  method ChainSet(ledger: seq<LedgerLine>, chain: ChainId) returns (latest: Option<LedgerLine>)
    ensures var lines := SetLines(ledger, chain);
      latest == if lines == [] then None else Some(lines[|lines| - 1])
  {
    var i := |ledger|;
    assert ledger[..i] == ledger;
    while i > 0
      invariant 0 <= i <= |ledger|
      invariant SetLines(ledger[..i], chain) == SetLines(ledger, chain)
    {
      i := i - 1;
      assert ledger[..i + 1][..i] == ledger[..i];
      if ledger[i].chain == chain && ledger[i].setState != NoState {
        return Some(ledger[i]);
      }
    }
    return None;
  }

  /** So the fingerprint it shows is the digest of all the chain's sealed sums, one after another. */
  lemma ChainSetIsWhole(d: Disk, chain: ChainId)
    requires Reachable(d) && SetLines(d.ledger, chain) != []
    ensures var lines := SetLines(d.ledger, chain);
      var latest := lines[|lines| - 1];
      latest.parts == RunsOf(lines) && latest.setFingerprint == Some(Sha256(Absorbed(lines)))
  {
    ReachableInv(d);
    var lines := SetLines(d.ledger, chain);
    assert lines[..|lines|] == lines && Exact(lines[..|lines|]);
  }

  // ---- a gone line written for a sealed run

  ghost predicate OwnLineOnly(d: Disk, m: Disk, run: RunId) {
    && (LinesOf(d.ledger, run) != [] ==> LinesOf(m.ledger, run) == LinesOf(d.ledger, run))
    && (LinesOf(d.ledger, run) == [] && LinesOf(m.ledger, run) != [] ==>
          Sealed(m, run).Some? && LineFits(m, run) && LinesOf(m.ledger, run) == [LedgerLineFrom(run, Sealed(m, run).value)])
  }

  lemma LinesOfStep(d: Disk, run: RunId, p: Proposal)
    requires run in d.records && Next(d, run, p).Some?
    ensures var m := Apply(d, Next(d, run, p).value);
      && OwnLineOnly(d, m, run)
      && (Sealed(d, run).Some? ==> Sealed(m, run) == Sealed(d, run))
      && (LinesOf(d.ledger, run) != LinesOf(m.ledger, run) ==> Sealed(d, run).Some?)
  {
    var e := Next(d, run, p).value;
    NextIs(d, run, p);
    hide Next, FirstOwed, MarkerAfter, SealedLineFor, LinesOf, LedgerHas, Readable, EndFrom;
    if e.AppendLedger? {
      LinesAppended(d.ledger, e.line, run);
    }
  }

  lemma {:induction false} LinesOfAfter(d: Disk, run: RunId, p: Proposal, n: nat)
    requires run in d.records
    ensures OwnLineOnly(d, After(d, run, p, n), run)
    ensures Sealed(d, run).Some? ==> Sealed(After(d, run, p, n), run) == Sealed(d, run)
    decreases n
  {
    hide Next;
    hide Sealed;
    hide LinesOf;
    if n > 0 && Next(d, run, p).Some? {
      LinesOfStep(d, run, p);
      LinesOfAfter(Apply(d, Next(d, run, p).value), run, p, n - 1);
    }
  }

  predicate HasSealedLine(ledger: seq<LedgerLine>, run: RunId) {
    exists l :: l in LinesOf(ledger, run) && l.kind == SealedKind
  }

  /** Seal-and-finish ends with a sealed ledger line for the run exactly when the line is one that can be read
      and the ledger does not already hold a line of another kind for it: one written by "this folder is
      gone" takes its place. Without one the run's sums never enter the set. */
  lemma SealedLineLands(d: Disk, run: RunId, p: Proposal)
    requires run in d.records
    ensures Sealed(Finish(d, run, p), run).Some?
    ensures HasSealedLine(Finish(d, run, p).ledger, run)
      <==> (HasSealedLine(d.ledger, run) || (!LedgerHas(d.ledger, run) && LineFits(Finish(d, run, p), run)))
  {
    var f := Finish(d, run, p);
    LinesOfAfter(d, run, p, Rank(d, run));
    FinishIsDone(d, run, p);
    DoneTells(f, run, p);
    hide Finish, Next, Sealed, Fits, MarkerAfter, MarkerOf, JournalHasEnd, LinesOf, LedgerHas;
    if !LedgerHas(d.ledger, run) && LedgerHas(f.ledger, run) {
      assert LedgerLineFrom(run, Sealed(f, run).value) in LinesOf(f.ledger, run);
    }
  }

  lemma DoneTells(d: Disk, run: RunId, p: Proposal)
    requires run in d.records && Next(d, run, p).None?
    ensures Sealed(d, run).Some? && !Due(d, run) && JournalHasEnd(d.journal, run)
    ensures MarkerAfter(run, Sealed(d, run).value, MarkerOf(d, run)) == MarkerOf(d, run)
  {
    hide SealOf, MarkerAfter, LedgerHas, JournalHasEnd, SealedLineFor, MarkerOf, Fits;
  }

  lemma TraceFrom(d: Disk, e: Event, rest: seq<Event>, end: Disk)
    requires Enabled(d, e) && Trace(Do(d, e), rest, end)
    ensures Trace(d, [e] + rest, end)
  {
    assert ([e] + rest)[1..] == rest;
  }

  lemma GoneDisk(r: RunId, c: ChainId, s: SealedLine, p: Proposal, d: Disk)
    requires d.records == map[r := Record(c, [SealedRec(s), GoneRec])]
    requires d.ledger == [LedgerLine(r, c, GoneKind, None, None, NoState, None, [])]
    ensures Sealed(d, r).Some? && !HasSealedLine(Finish(d, r, p).ledger, r)
  {
    hide Finish;
    hide LedgerHas;
    assert d.ledger == [] + d.ledger;
    LinesAppended([], d.ledger[0], r);
    assert d.records[r].lines[0].SealedRec?;
    SealedLineLands(d, r, p);
  }

  lemma GoneSteps(r: RunId, c: ChainId, p: Proposal, stamp: nat) returns (d1: Disk, d2: Disk, d3: Disk, s: SealedLine)
    ensures Enabled(NewDisk(stamp), Create(r, c, None)) && Do(NewDisk(stamp), Create(r, c, None)) == d1
    ensures Enabled(d1, SealStep(r, p)) && Do(d1, SealStep(r, p)) == d2
    ensures Enabled(d2, GoneInRecord(r)) && Do(d2, GoneInRecord(r)) == d3
    ensures d3.records == map[r := Record(c, [SealedRec(s), GoneRec])] && d3.ledger == [] && d3.index == [r]
    ensures d3.stamp == stamp
  {
    d1 := Disk(map[r := Record(c, [])], [r], [], [], map[r := None], stamp);
    s := SealedLineFor(d1, r, p);
    d2 := d1.(records := map[r := Record(c, [SealedRec(s)])]);
    d3 := d1.(records := map[r := Record(c, [SealedRec(s), GoneRec])]);
    hide SealedLineFor, LineBytes;
    assert [] + [SealedRec(s)] == [SealedRec(s)] && [SealedRec(s)] + [GoneRec] == [SealedRec(s), GoneRec];
    assert d1.records[r := d2.records[r]] == d2.records && d2.records[r := d3.records[r]] == d3.records;
    assert AppendToRecord(d1, r, SealedRec(s)) == d2 && AppendToRecord(d2, r, GoneRec) == d3;
    assert Next(d1, r, p) == Some(AppendSealed(r, s));
  }

  /** It does happen: a part sealed but not yet in the ledger when its folder is said to be gone. */
  lemma GoneTakesTheLine(p: Proposal, stamp: nat)
    requires stamp <= 35
    ensures exists d: Disk, run: RunId ::
      d.stamp == stamp && Reachable(d) && run in d.records && Sealed(d, run).Some?
      && !HasSealedLine(Finish(d, run, p).ledger, run)
  {
    var r, c: ChainId := "r", "c";
    var d1, d2, d3, s := GoneSteps(r, c, p, stamp);
    var l := LedgerLine(r, c, GoneKind, None, None, NoState, None, []);
    var d4 := d3.(ledger := [l]);
    assert d3.records[r].lines[1] == GoneRec;
    assert LineBytes(l, stamp) <= LINE_CUT;
    assert Enabled(d3, GoneInLedger(r)) && Do(d3, GoneInLedger(r)) == d4;
    hide Do;
    hide Enabled;
    hide Next;
    TraceFrom(d3, GoneInLedger(r), [], d4);
    TraceFrom(d2, GoneInRecord(r), [GoneInLedger(r)] + [], d4);
    TraceFrom(d1, SealStep(r, p), [GoneInRecord(r)] + ([GoneInLedger(r)] + []), d4);
    TraceFrom(NewDisk(stamp), Create(r, c, None), [SealStep(r, p)] + ([GoneInRecord(r)] + ([GoneInLedger(r)] + [])), d4);
    GoneDisk(r, c, s, p, d4);
  }
}
