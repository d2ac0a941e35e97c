/** How far each run of a chain has got, over every interleaving with the other runs: other parts may write
    its ledger line for it, and a gone or refused line may stand where its sealed one would. */
module SealStages {
  import opened Ledger
  import opened SealChain
  import opened SealConvergence
  import opened SealEngine
  import opened Wrappers

  /** A ledger line with nothing of a seal in it. */
  predicate Bare(l: LedgerLine) { l.kind != SealedKind && l.setState == NoState }

  /** A run's ledger line is bare, or the copy of its last seal and short enough to be read. */
  ghost predicate LineFrom(run: RunId, stamp: nat, seals: seq<SealedLine>, l: LedgerLine) {
    Bare(l) || (seals != [] && l == LedgerLineFrom(run, seals[|seals| - 1]) && Readable(l, stamp))
  }

  /** A sealed run's ledger line is there, or is past the cut. */
  ghost predicate LineDone(run: RunId, stamp: nat, o: Owned) {
    o.seals != [] && (o.lines != [] || !Readable(LedgerLineFrom(run, o.seals[|o.seals| - 1]), stamp))
  }

  /** What one event may do to what a run owns: seal it once, write its one ledger line, of the seal or bare,
      and then settle the marker and, that settled, end the journal once. */
  ghost predicate Moves(run: RunId, stamp: nat, a: Owned, b: Owned) {
    || b == a
    || (a.seals == [] && |b.seals| == 1 && b.seals[0].setState.Saved? && b == a.(seals := b.seals))
    || (a.lines == [] && |b.lines| == 1 && b == a.(lines := b.lines) && LineFrom(run, stamp, a.seals, b.lines[0]))
    || (LineDone(run, stamp, a) && b == a.(marker := MarkerAfter(run, a.seals[|a.seals| - 1], a.marker)))
    || (LineDone(run, stamp, a) && a.ends == []
        && a.marker == MarkerAfter(run, a.seals[|a.seals| - 1], a.marker)
        && b == a.(ends := [EndFrom(run, a.seals[|a.seals| - 1])]))
  }

  lemma LineMoves(d: Disk, run: RunId, l: LedgerLine)
    requires run in d.records && !LedgerHas(d.ledger, l.run)
    requires Bare(l) || (Pending(d, l.run) && l == LedgerLineFrom(l.run, Sealed(d, l.run).value))
    ensures Moves(run, d.stamp, OwnedBy(d, run), OwnedBy(d.(ledger := WithLine(d, l)), run))
  {
    OwnedTells(d, run);
    if Fits(d, l) {
      OwnedAfter(d, run, AppendLedger(l));
    } else {
      assert d.(ledger := d.ledger) == d;
    }
    hide OwnedBy, MarkerAfter, LedgerHas, Sealed, JournalHasEnd, MarkerOf, EndFrom, Readable;
  }

  lemma MarkerMoves(run: RunId, stamp: nat, a: Owned)
    requires LineDone(run, stamp, a)
    ensures Moves(run, stamp, a, a.(marker := MarkerAfter(run, a.seals[|a.seals| - 1], a.marker)))
  {
  }

  lemma EndMoves(run: RunId, stamp: nat, a: Owned)
    requires LineDone(run, stamp, a) && a.ends == [] && a.marker == MarkerAfter(run, a.seals[|a.seals| - 1], a.marker)
    ensures Moves(run, stamp, a, a.(ends := [EndFrom(run, a.seals[|a.seals| - 1])]))
  {
  }

  lemma SealMoves(run: RunId, stamp: nat, a: Owned, s: SealedLine)
    requires a.seals == [] && s.setState.Saved?
    ensures Moves(run, stamp, a, a.(seals := [s]))
  {
    assert [s][0] == s;
  }

  /** What a sealed run whose line is not due has done. */
  lemma NotDueIsDone(d: Disk, run: RunId)
    requires run in d.records && Sealed(d, run).Some? && !Due(d, run)
    ensures LineDone(run, d.stamp, OwnedBy(d, run))
    ensures Sealed(d, run).value == OwnedBy(d, run).seals[|OwnedBy(d, run).seals| - 1]
  {
    OwnedTells(d, run);
    hide OwnedBy, Sealed, Readable, LedgerHas, JournalHasEnd;
  }

  lemma NextMoves(d: Disk, run: RunId, q: RunId, p: Proposal)
    requires run in d.records && q in d.records && Next(d, q, p).Some?
    ensures Moves(run, d.stamp, OwnedBy(d, run), OwnedBy(Apply(d, Next(d, q, p).value), run))
  {
    var e, o := Next(d, q, p).value, OwnedBy(d, run);
    NextIs(d, q, p);
    OwnedTells(d, run);
    OwnedAfter(d, run, e);
    SealsAreSaved(d, q, p);
    assert forall l :: Fits(d, l) == Readable(l, d.stamp);
    assert forall r, s :: LedgerLineFrom(r, s).run == r && EndFrom(r, s).run == r;
    hide Next, OwnedBy, Apply, Sealed, Due, LedgerHas, JournalHasEnd, MarkerOf, MarkerAfter, Moves, LineDone, LedgerLineFrom, EndFrom;
    match e {
      case AppendSealed(_, s) =>
        if q == run {
          SealMoves(run, d.stamp, o, s);
          assert o.seals + [s] == [s];
        } else {
          NoMove(run, d.stamp, o);
        }
      case AppendLedger(l) => DueMoves(d, run, l);
      case PutMarker(_, _) =>
        if q == run {
          NotDueIsDone(d, run);
          MarkerMoves(run, d.stamp, o);
        } else {
          NoMove(run, d.stamp, o);
        }
      case AppendEnd(_) =>
        if q == run {
          NotDueIsDone(d, run);
          EndMoves(run, d.stamp, o);
          assert o.ends + [EndFrom(q, Sealed(d, q).value)] == [EndFrom(q, Sealed(d, q).value)];
        } else {
          NoMove(run, d.stamp, o);
        }
    }
  }

  lemma NoMove(run: RunId, stamp: nat, a: Owned)
    ensures Moves(run, stamp, a, a)
  {
  }

  lemma DueMoves(d: Disk, run: RunId, l: LedgerLine)
    requires run in d.records && Due(d, l.run) && l == LedgerLineFrom(l.run, Sealed(d, l.run).value)
    ensures Moves(run, d.stamp, OwnedBy(d, run), OwnedBy(Apply(d, AppendLedger(l)), run))
  {
    LineMoves(d, run, l);
    hide Moves, OwnedBy, Readable, Sealed, LedgerHas;
  }

  lemma SealsAreSaved(d: Disk, q: RunId, p: Proposal)
    requires q in d.records && Next(d, q, p).Some?
    ensures Next(d, q, p).value.AppendSealed? ==> Next(d, q, p).value.sealed.setState.Saved?
  {
    hide FirstOwed, Resume, MarkerAfter;
  }

  /** Whatever happens to any run, a run that stays recorded only moves on. */
  lemma EventMoves(d: Disk, ev: Event, run: RunId)
    requires Enabled(d, ev) && run in d.records && run in Do(d, ev).records && Indexed(d)
    ensures (ev.MarkerChanged? && ev.run == run) || Moves(run, d.stamp, OwnedBy(d, run), OwnedBy(Do(d, ev), run))
    ensures Do(d, ev).stamp == d.stamp
  {
    match ev
    case Create(q, chain, m) => assert q != run;
    case Refuse(q) => LineMoves(d, run, BareLine(d, q, RefusedKind));
    case SealStep(q, p) => NextMoves(d, run, q, p);
    case Backfill(q) => LineMoves(d, run, LedgerLineFrom(q, Sealed(d, q).value));
    case GoneInRecord(q) => GoneKeepsSeals(d, q, run);
    case GoneInLedger(q) => LineMoves(d, run, BareLine(d, q, GoneKind));
    case DeleteRecord(q) =>
    case MarkerChanged(q, m) =>
  }

  // ---- how far a run is

  /** A later step's effect is durable only with every earlier one, all of one sealed line and none twice; but
      a bare line may stand for the run's ledger line, whenever it came, and a line past the cut is never
      there. */
  ghost predicate Staged(run: RunId, stamp: nat, o: Owned) {
    && |o.seals| <= 1 && |o.lines| <= 1 && |o.ends| <= 1
    && (o.seals != [] ==> o.seals[0].setState.Saved?)
    && (o.lines != [] ==> LineFrom(run, stamp, o.seals, o.lines[0]))
    && (o.ends != [] ==> LineDone(run, stamp, o) && o.ends[0] == EndFrom(run, o.seals[0]))
  }

  lemma MovesStaged(run: RunId, stamp: nat, a: Owned, b: Owned)
    requires Staged(run, stamp, a) && Moves(run, stamp, a, b)
    ensures Staged(run, stamp, b)
  {
  }

  ghost predicate AllStaged(d: Disk) {
    && (forall run {:trigger OwnedBy(d, run)} :: run in d.records ==> Staged(run, d.stamp, OwnedBy(d, run)))
    && (forall i :: 0 <= i < |d.journal| ==> d.journal[i].run in d.index)
  }

  lemma CreatedIsNew(d: Disk, run: RunId, chain: ChainId, m: Option<Marker>)
    requires Indexed(d) && AllStaged(d) && run !in d.index
    ensures var e := Do(d, Create(run, chain, m));
      OwnedBy(e, run) == Owned([], [], m, [])
  {
    assert !LedgerHas(d.ledger, run) && !JournalHasEnd(d.journal, run);
  }

  lemma EventStaged(d: Disk, ev: Event)
    requires Indexed(d) && AllStaged(d) && Enabled(d, ev)
    ensures AllStaged(Do(d, ev))
  {
    var e := Do(d, ev);
    forall run | run in e.records ensures Staged(run, e.stamp, OwnedBy(e, run)) {
      if run in d.records {
        assert Staged(run, d.stamp, OwnedBy(d, run));
        EventMoves(d, ev, run);
        if ev.MarkerChanged? && ev.run == run {
          assert OwnedBy(e, run) == OwnedBy(d, run).(marker := ev.marker);
        } else {
          MovesStaged(run, d.stamp, OwnedBy(d, run), OwnedBy(e, run));
        }
      } else {
        CreatedIsNew(d, ev.run, ev.chain, ev.marker);
      }
    }
    EventIndexed(d, ev);
  }

  lemma EventIndexed(d: Disk, ev: Event)
    requires Indexed(d) && Enabled(d, ev) && forall i :: 0 <= i < |d.journal| ==> d.journal[i].run in d.index
    ensures var e := Do(d, ev); forall i :: 0 <= i < |e.journal| ==> e.journal[i].run in e.index
  {
    hide FirstOwed, MarkerAfter, SealedLineFor;
  }

  lemma {:induction false} TraceStaged(d: Disk, events: seq<Event>, end: Disk)
    requires SealChain.Inv(d) && AllStaged(d) && Trace(d, events, end)
    ensures SealChain.Inv(end) && AllStaged(end)
    decreases |events|
  {
    if events != [] {
      hide SealChain.Inv, AllStaged, Do, Enabled;
      InvIndexed(d);
      InvStep(d, events[0]);
      EventStaged(d, events[0]);
      TraceStaged(Do(d, events[0]), events[1..], end);
    }
  }

  lemma InvIndexed(d: Disk)
    requires SealChain.Inv(d)
    ensures Indexed(d)
  {
  }

  /** Over every interleaving every recorded run is at a stage: its seal, its ledger line and its journal end
      are durable in this order, once each and of one sealed line, unless a bare line took the ledger
      line's place or it is past the cut. */
  lemma StagesReachable(d: Disk, run: RunId)
    requires Reachable(d) && run in d.records
    ensures Staged(run, d.stamp, OwnedBy(d, run))
  {
    var events :| Trace(NewDisk(d.stamp), events, d);
    TraceStaged(NewDisk(d.stamp), events, d);
  }

  // ---- the marker, where nobody else changes it

  /** The stage with the marker: it is as it was until the ledger line is durable, and the marker action of
      the one sealed line once the journal has ended. */
  ghost predicate MarkerStaged(run: RunId, stamp: nat, o: Owned, m0: Option<Marker>) {
    && Staged(run, stamp, o)
    && (o.marker == m0 || (LineDone(run, stamp, o) && o.marker == MarkerAfter(run, o.seals[0], m0)))
    && (o.ends != [] ==> o.marker == MarkerAfter(run, o.seals[0], m0))
  }

  /** Nothing durable is taken back. */
  ghost predicate Kept(a: Owned, b: Owned) { a.seals <= b.seals && a.lines <= b.lines && a.ends <= b.ends }

  lemma MovesMarker(run: RunId, stamp: nat, a: Owned, b: Owned, m0: Option<Marker>)
    requires MarkerStaged(run, stamp, a, m0) && Moves(run, stamp, a, b)
    ensures MarkerStaged(run, stamp, b, m0) && Kept(a, b)
  {
    if a.seals != [] {
      MarkerSettles(run, a.seals[0], m0);
    }
    hide MarkerAfter, LedgerLineFrom, EndFrom;
  }

  lemma {:induction false} DeletedStays(d: Disk, events: seq<Event>, e: Disk, run: RunId)
    requires Trace(d, events, e) && run in d.index && run !in d.records
    ensures run !in e.records
    decreases |events|
  {
    if events != [] {
      DeletedOnce(d, events[0], run);
      hide Do, Enabled;
      DeletedStays(Do(d, events[0]), events[1..], e, run);
    }
  }

  lemma DeletedOnce(d: Disk, ev: Event, run: RunId)
    requires Enabled(d, ev) && run in d.index
    ensures run in Do(d, ev).index && (run !in d.records ==> run !in Do(d, ev).records)
  {
    hide FirstOwed, SealedLineFor, MarkerAfter;
  }

  predicate MarkerLeft(events: seq<Event>, run: RunId) {
    forall i :: 0 <= i < |events| ==> !(events[i].MarkerChanged? && events[i].run == run)
  }

  lemma {:induction false} TraceMarker(d: Disk, events: seq<Event>, e: Disk, run: RunId, m0: Option<Marker>)
    requires SealChain.Inv(d) && Trace(d, events, e) && MarkerLeft(events, run)
    requires run in d.records && run in e.records && MarkerStaged(run, d.stamp, OwnedBy(d, run), m0)
    ensures MarkerStaged(run, d.stamp, OwnedBy(e, run), m0) && Kept(OwnedBy(d, run), OwnedBy(e, run))
    decreases |events|
  {
    if events != [] {
      var ev, m := events[0], Do(d, events[0]);
      InvIndexed(d);
      assert run in d.index;
      DeletedOnce(d, ev, run);
      InvStep(d, ev);
      if run !in m.records {
        DeletedStays(m, events[1..], e, run);
        assert false;
      }
      EventMoves(d, ev, run);
      hide SealChain.Inv, Do, Enabled, OwnedBy, Moves, MarkerStaged;
      MovesMarker(run, d.stamp, OwnedBy(d, run), OwnedBy(m, run), m0);
      TraceMarker(m, events[1..], e, run, m0);
    }
  }

  /** From wherever a run is not sealed yet, over every interleaving that leaves its marker alone: sealed
      line, ledger line, marker action and journal end are durable in this order, each once and of one
      sealed line, nothing durable is taken back, and only a bare line may stand in the ledger line's place. */
  lemma LaterImpliesEarlierInChain(d: Disk, events: seq<Event>, e: Disk, run: RunId)
    requires Reachable(d) && Trace(d, events, e) && MarkerLeft(events, run)
    requires run in d.records && run in e.records && Sealed(d, run).None?
    ensures MarkerStaged(run, d.stamp, OwnedBy(e, run), MarkerOf(d, run)) && Kept(OwnedBy(d, run), OwnedBy(e, run))
  {
    StagesReachable(d, run);
    OwnedTells(d, run);
    ReachableInv(d);
    hide Reachable, SealChain.Inv, OwnedBy, Sealed, MarkerOf;
    TraceMarker(d, events, e, run, MarkerOf(d, run));
  }

  // ---- finishing

  lemma {:induction false} TraceMore(d: Disk, events: seq<Event>, m: Disk, ev: Event)
    requires Trace(d, events, m) && Enabled(m, ev)
    ensures Trace(d, events + [ev], Do(m, ev))
    decreases |events|
  {
    hide Do, Enabled;
    if events == [] {
      assert [] + [ev] == [ev] && [ev][1..] == [];
    } else {
      TraceMore(Do(d, events[0]), events[1..], m, ev);
      assert (events + [ev])[1..] == events[1..] + [ev];
    }
  }

  lemma {:induction false} ReachableAfter(d: Disk, run: RunId, p: Proposal, n: nat)
    requires Reachable(d) && run in d.records
    ensures Reachable(After(d, run, p, n))
    decreases n
  {
    hide Next;
    if n > 0 && Next(d, run, p).Some? {
      var events :| Trace(NewDisk(d.stamp), events, d);
      TraceMore(NewDisk(d.stamp), events, d, SealStep(run, p));
      assert Do(d, SealStep(run, p)) == Apply(d, Next(d, run, p).value);
      ReachableAfter(Apply(d, Next(d, run, p).value), run, p, n - 1);
    }
  }

  /** What a run owns when nothing is left to do for it. */
  lemma DoneOwns(d: Disk, run: RunId, p: Proposal)
    requires run in d.records && Next(d, run, p).None?
    ensures var o := OwnedBy(d, run);
      && LineDone(run, d.stamp, o) && o.ends != []
      && o.marker == MarkerAfter(run, o.seals[|o.seals| - 1], o.marker)
  {
    DoneTells(d, run, p);
    OwnedTells(d, run);
    hide Next, OwnedBy, Sealed, MarkerAfter, MarkerOf, LedgerHas, JournalHasEnd, Readable;
  }

  lemma LinesOwned(d: Disk, run: RunId)
    requires run in d.records
    ensures OwnedBy(d, run).lines == LinesOf(d.ledger, run)
  {
  }

  lemma LinesKept(d: Disk, m: Disk, run: RunId)
    requires run in d.records && run in m.records && OwnLineOnly(d, m, run)
    ensures var a, o := OwnedBy(d, run), OwnedBy(m, run);
      && (a.lines != [] ==> o.lines == a.lines)
      && (a.lines == [] && o.lines != [] ==> o.seals != [] && o.lines == [LedgerLineFrom(run, o.seals[|o.seals| - 1])])
  {
    LinesOwned(d, run);
    LinesOwned(m, run);
    OwnedTells(m, run);
    hide OwnedBy, Sealed, LedgerLineFrom, LinesOf, Fits;
  }

  lemma FinishIsAfter(d: Disk, run: RunId, p: Proposal)
    requires run in d.records
    ensures Finish(d, run, p) == After(d, run, p, Rank(d, run)) && Finish(d, run, p).stamp == d.stamp
  {
  }

  /** Finishing a run wherever the chain has got to ends with one seal, one journal end and the marker action,
      all of it, and with the sealed ledger line exactly where that can be read and no bare one was there
      before. */
  lemma FinishedOnceInChain(d: Disk, run: RunId, p: Proposal)
    requires Reachable(d) && run in d.records
    ensures var a, o := OwnedBy(d, run), OwnedBy(Finish(d, run, p), run);
      && |o.seals| == 1 && o.ends == [EndFrom(run, o.seals[0])] && o.marker == MarkerAfter(run, o.seals[0], o.marker)
      && o.lines == (if a.lines != [] then a.lines
                     else if Readable(LedgerLineFrom(run, o.seals[0]), d.stamp) then [LedgerLineFrom(run, o.seals[0])]
                     else [])
      && (a.lines != [] ==> Bare(a.lines[0]) || a.lines == [LedgerLineFrom(run, o.seals[0])])
      && MarkerSays(run, o.seals[0], o.marker, o.marker) && EndSays(run, o.seals[0], o.ends[0])
      && forall l :: l in o.lines ==> Bare(l) || LineSays(run, o.seals[0], l)
  {
    hide *;
    var f := Finish(d, run, p);
    FinishIsAfter(d, run, p);
    ReachableAfter(d, run, p, Rank(d, run));
    StagesReachable(f, run);
    FinishIsDone(d, run, p);
    DoneOwns(f, run, p);
    LinesOfAfter(d, run, p, Rank(d, run));
    LinesKept(d, f, run);
    FinishedOwned(run, d.stamp, OwnedBy(d, run), OwnedBy(f, run));
    StepSays(run, OwnedBy(f, run).seals[0], OwnedBy(f, run).marker);
  }

  lemma FinishedOwned(run: RunId, stamp: nat, a: Owned, o: Owned)
    requires Staged(run, stamp, o) && LineDone(run, stamp, o) && o.ends != []
    requires a.lines != [] ==> o.lines == a.lines
    requires a.lines == [] && o.lines != [] ==> o.lines == [LedgerLineFrom(run, o.seals[|o.seals| - 1])]
    ensures |o.seals| == 1 && o.ends == [EndFrom(run, o.seals[0])]
    ensures o.lines == (if a.lines != [] then a.lines
                        else if Readable(LedgerLineFrom(run, o.seals[0]), stamp) then [LedgerLineFrom(run, o.seals[0])]
                        else [])
    ensures a.lines != [] ==> Bare(a.lines[0]) || a.lines == [LedgerLineFrom(run, o.seals[0])]
  {
    hide EndFrom, Readable;
    assert LedgerLineFrom(run, o.seals[0]).kind == SealedKind;
    hide LedgerLineFrom;
  }
}
