/** Seal-and-finish under crashes: whatever attempts are cut off wherever, running it again ends in
    the state an uninterrupted run of the attempt that sealed would have reached. */
module SealConvergence {
  import opened Wrappers
  import opened Ledger
  import opened SealEngine

  // ---- it ends

  /** Parts of the chain, from place i of the index on, that still lack their ledger line. */
  function OwedCount(d: Disk, chain: ChainId, self: RunId, i: nat): nat
    requires i <= |d.index|
    decreases |d.index| - i
  {
    if i == |d.index| then 0
    else (if Owed(d, d.index[i], chain, self) then 1 else 0) + OwedCount(d, chain, self, i + 1)
  }

  function Rank(d: Disk, run: RunId): nat
    requires run in d.records
  {
    var s := Sealed(d, run);
    if s.None? then 4 + OwedCount(d, d.records[run].chain, run, 0)
    else
      (if Due(d, run) then 1 else 0)
      + (if MarkerAfter(run, s.value, MarkerOf(d, run)) == MarkerOf(d, run) then 0 else 1)
      + (if JournalHasEnd(d.journal, run) then 0 else 1)
  }

  lemma LedgerHasGrows(a: seq<LedgerLine>, l: LedgerLine, run: RunId)
    ensures LedgerHas(a + [l], run) <==> LedgerHas(a, run) || l.run == run
  {
    if LedgerHas(a, run) {
      var i :| 0 <= i < |a| && a[i].run == run;
      assert (a + [l])[i] == a[i];
    }
    if l.run == run {
      assert (a + [l])[|a|] == l;
    }
    if LedgerHas(a + [l], run) && l.run != run {
      var i :| 0 <= i < |a + [l]| && (a + [l])[i].run == run;
      assert a[i].run == run;
    }
  }

  lemma {:induction false} OwedCountDrops(d: Disk, l: LedgerLine, chain: ChainId, self: RunId, i: nat)
    requires i <= |d.index|
    ensures OwedCount(Apply(d, AppendLedger(l)), chain, self, i) <= OwedCount(d, chain, self, i)
    ensures (exists k :: i <= k < |d.index| && Owed(d, d.index[k], chain, self) && d.index[k] == l.run)
      ==> OwedCount(Apply(d, AppendLedger(l)), chain, self, i) < OwedCount(d, chain, self, i)
    decreases |d.index| - i
  {
    if i < |d.index| {
      OwedCountDrops(d, l, chain, self, i + 1);
      LedgerHasGrows(d.ledger, l, d.index[i]);
    }
  }

  lemma RankDrops(d: Disk, run: RunId, p: Proposal)
    requires run in d.records
    requires Next(d, run, p).Some?
    ensures Rank(Apply(d, Next(d, run, p).value), run) < Rank(d, run)
  {
    var chain := d.records[run].chain;
    match Next(d, run, p).value
    case AppendSealed(_, s) =>
      SealOfAppended(d.records[run].lines, s);
    case AppendLedger(l) =>
      LedgerHasGrows(d.ledger, l, run);
      OwedCountDrops(d, l, chain, run, 0);
    case PutMarker(_, m) =>
      MarkerSettles(run, Sealed(d, run).value, MarkerOf(d, run));
    case AppendEnd(j) =>
      JournalHasEndAppended(d.journal, j);
  }

  /** The state an uninterrupted seal-and-finish reaches. */
  function Finish(d: Disk, run: RunId, p: Proposal): Disk
    requires run in d.records
  {
    After(d, run, p, Rank(d, run))
  }

  lemma {:induction false} StopsWithin(d: Disk, run: RunId, p: Proposal, n: nat)
    requires run in d.records && Rank(d, run) <= n
    ensures Next(After(d, run, p, n), run, p).None?
    decreases n
  {
    hide Next;
    hide Rank;
    if Next(d, run, p).Some? {
      RankDrops(d, run, p);
      StopsWithin(Apply(d, Next(d, run, p).value), run, p, n - 1);
    }
  }

  /** Seal-and-finish always comes to an end, with nothing left to do. */
  lemma FinishIsDone(d: Disk, run: RunId, p: Proposal)
    requires run in d.records
    ensures Next(Finish(d, run, p), run, p).None?
  {
    StopsWithin(d, run, p, Rank(d, run));
  }

  // ---- crash and run again

  lemma {:induction false} AfterAfter(d: Disk, run: RunId, p: Proposal, k: nat, n: nat)
    requires run in d.records
    ensures After(After(d, run, p, k), run, p, n) == After(d, run, p, k + n)
    decreases k
  {
    hide Next;
    if k > 0 {
      match Next(d, run, p)
      case None => AfterStuck(d, run, p, 0, n);
      case Some(e) => AfterAfter(Apply(d, e), run, p, k - 1, n);
    }
  }

  lemma SealStays(d: Disk, run: RunId, p: Proposal)
    requires run in d.records && Next(d, run, p).Some? && Sealed(d, run).Some?
    ensures Sealed(Apply(d, Next(d, run, p).value), run) == Sealed(d, run)
  {
  }

  /** The first sealed line stands, whatever the attempts after it propose. */
  lemma {:induction false} ProposalForgotten(d: Disk, run: RunId, p: Proposal, q: Proposal, n: nat)
    requires run in d.records && Sealed(d, run).Some?
    ensures After(d, run, p, n) == After(d, run, q, n)
    ensures Sealed(After(d, run, p, n), run) == Sealed(d, run)
    decreases n
  {
    if n > 0 && Next(d, run, p).Some? {
      assert Next(d, run, p) == Next(d, run, q);
      SealStays(d, run, p);
      ProposalForgotten(Apply(d, Next(d, run, p).value), run, p, q, n - 1);
    }
  }

  /** An attempt cut off before its sealed line did nothing that depends on what it proposed. */
  lemma {:induction false} UnsealedAttemptIsNeutral(d: Disk, run: RunId, p: Proposal, q: Proposal, k: nat)
    requires run in d.records && Sealed(After(d, run, p, k), run).None?
    ensures After(d, run, p, k) == After(d, run, q, k)
    decreases k
  {
    if Sealed(d, run).Some? {
      ProposalForgotten(d, run, p, q, k);
    } else if k > 0 {
      var e := Next(d, run, p).value;
      if e.AppendSealed? {
        SealsWhenAppended(d, run, p, k);
        assert false;
      }
      assert Next(d, run, q) == Some(e);
      UnsealedAttemptIsNeutral(Apply(d, e), run, p, q, k - 1);
    }
  }

  lemma SealsWhenAppended(d: Disk, run: RunId, p: Proposal, k: nat)
    requires run in d.records && Sealed(d, run).None? && k > 0
    requires Next(d, run, p).value.AppendSealed?
    ensures Sealed(After(d, run, p, k), run) == Some(SealedLineFor(d, run, p))
  {
    var s := SealedLineFor(d, run, p);
    SealOfAppended(d.records[run].lines, s);
    ProposalForgotten(Apply(d, AppendSealed(run, s)), run, p, p, k - 1);
  }

  lemma FinishAfterOwnCrash(d: Disk, run: RunId, p: Proposal, k: nat)
    requires run in d.records
    ensures Finish(After(d, run, p, k), run, p) == Finish(d, run, p)
  {
    var m := After(d, run, p, k);
    var a, b := k + Rank(m, run), Rank(d, run);
    AfterAfter(d, run, p, k, Rank(m, run));
    FinishIsDone(m, run, p);
    FinishIsDone(d, run, p);
    if a <= b {
      AfterStuck(d, run, p, a, b);
    } else {
      AfterStuck(d, run, p, b, a);
    }
  }

  lemma FinishSame(d: Disk, run: RunId, p: Proposal, q: Proposal)
    requires run in d.records && Sealed(d, run).Some?
    ensures Finish(d, run, p) == Finish(d, run, q)
  {
    ProposalForgotten(d, run, p, q, Rank(d, run));
  }

  /** A crash after any step, then a run to the end with another proposal. */
  lemma ConvergesAfterCrash(d: Disk, run: RunId, p: Proposal, q: Proposal, k: nat)
    requires run in d.records
    ensures var m := After(d, run, p, k);
      Finish(m, run, q) == Finish(d, run, if Sealed(m, run).Some? then p else q)
  {
    var m := After(d, run, p, k);
    if Sealed(m, run).Some? {
      FinishSame(m, run, p, q);
      FinishAfterOwnCrash(d, run, p, k);
    } else {
      UnsealedAttemptIsNeutral(d, run, p, q, k);
      FinishAfterOwnCrash(d, run, q, k);
    }
  }

  /** A history of attempts, each cut off after so many durable effects. */
  function Attempts(d: Disk, run: RunId, tries: seq<(Proposal, nat)>): (r: Disk)
    requires run in d.records
    ensures r.records.Keys == d.records.Keys
    decreases |tries|
  {
    if tries == [] then d
    else Attempts(After(d, run, tries[0].0, tries[0].1), run, tries[1..])
  }

  /** The proposal that is sealed: that of the first attempt that got as far, else the last one's. */
  function Winner(d: Disk, run: RunId, tries: seq<(Proposal, nat)>, last: Proposal): Proposal
    requires run in d.records
    decreases |tries|
  {
    if tries == [] then last
    else
      var m := After(d, run, tries[0].0, tries[0].1);
      if Sealed(m, run).Some? then tries[0].0 else Winner(m, run, tries[1..], last)
  }

  lemma {:induction false} AttemptsKeepSeal(d: Disk, run: RunId, tries: seq<(Proposal, nat)>, p: Proposal, last: Proposal)
    requires run in d.records && Sealed(d, run).Some?
    ensures Finish(Attempts(d, run, tries), run, last) == Finish(d, run, p)
    decreases |tries|
  {
    if tries == [] {
      FinishSame(d, run, last, p);
    } else {
      var (q, k) := tries[0];
      ProposalForgotten(d, run, q, q, k);
      AttemptsKeepSeal(After(d, run, q, k), run, tries[1..], q, last);
      FinishAfterOwnCrash(d, run, q, k);
      FinishSame(d, run, q, p);
    }
  }

  /** Convergence over any history of interrupted attempts. */
  lemma {:induction false} Converges(d: Disk, run: RunId, tries: seq<(Proposal, nat)>, last: Proposal)
    requires run in d.records
    ensures Finish(Attempts(d, run, tries), run, last) == Finish(d, run, Winner(d, run, tries, last))
    decreases |tries|
  {
    if tries != [] {
      var (p, k) := tries[0];
      var m := After(d, run, p, k);
      if Sealed(m, run).Some? {
        AttemptsKeepSeal(m, run, tries[1..], p, last);
        FinishAfterOwnCrash(d, run, p, k);
      } else {
        var w := Winner(m, run, tries[1..], last);
        Converges(m, run, tries[1..], last);
        ConvergesAfterCrash(d, run, p, w, k);
      }
    }
  }

  // ---- what is durable when, and what the end state holds

  function SealsIn(lines: seq<RecordLine>): seq<SealedLine> {
    if lines == [] then []
    else SealsIn(lines[..|lines| - 1]) + (if lines[|lines| - 1].SealedRec? then [lines[|lines| - 1].line] else [])
  }

  function LinesOf(ledger: seq<LedgerLine>, run: RunId): (r: seq<LedgerLine>)
    ensures r == [] <==> !LedgerHas(ledger, run)
  {
    if ledger == [] then []
    else
      LedgerHasGrows(ledger[..|ledger| - 1], ledger[|ledger| - 1], run);
      assert ledger == ledger[..|ledger| - 1] + [ledger[|ledger| - 1]];
      LinesOf(ledger[..|ledger| - 1], run) + (if ledger[|ledger| - 1].run == run then [ledger[|ledger| - 1]] else [])
  }

  function EndsOf(journal: seq<JournalLine>, run: RunId): (r: seq<JournalLine>)
    ensures r == [] <==> !JournalHasEnd(journal, run)
  {
    if journal == [] then []
    else
      var last := journal[|journal| - 1];
      EndsOf(journal[..|journal| - 1], run) + (if last.run == run && last.event == "end" then [last] else [])
  }

  /** Everything on the disk that is one run's own. */
  datatype Owned = Owned(seals: seq<SealedLine>, lines: seq<LedgerLine>, marker: Option<Marker>, ends: seq<JournalLine>)

  function OwnedBy(d: Disk, run: RunId): Owned
    requires run in d.records
  {
    Owned(SealsIn(d.records[run].lines), LinesOf(d.ledger, run), MarkerOf(d, run), EndsOf(d.journal, run))
  }

  /** What is durable when so many of the four steps are done: sealed line, ledger line, marker
      action, journal end, each from the one sealed line; a ledger line past the cut never is. */
  function StageView(run: RunId, s: SealedLine, m0: Option<Marker>, stage: nat, fits: bool): Owned {
    Owned(if stage >= 1 then [s] else [],
          if stage >= 2 && fits then [LedgerLineFrom(run, s)] else [],
          if stage >= 3 then MarkerAfter(run, s, m0) else m0,
          if stage >= 4 then [EndFrom(run, s)] else [])
  }

  ghost predicate AtStage(d: Disk, run: RunId, m0: Option<Marker>, s: SealedLine, stage: nat)
    requires run in d.records
  {
    OwnedBy(d, run) == StageView(run, s, m0, stage, Fits(d, LedgerLineFrom(run, s)))
  }

  lemma {:induction false} SealOfSeals(lines: seq<RecordLine>)
    ensures SealOf(lines).None? <==> SealsIn(lines) == []
    ensures SealOf(lines).Some? ==> SealOf(lines).value == SealsIn(lines)[|SealsIn(lines)| - 1]
  {
    if lines != [] {
      SealOfSeals(lines[..|lines| - 1]);
    }
  }

  /** What a run owns says what the step reads. */
  lemma OwnedTells(d: Disk, run: RunId)
    requires run in d.records
    ensures var o := OwnedBy(d, run);
      && (Sealed(d, run) == if o.seals == [] then None else Some(o.seals[|o.seals| - 1]))
      && (Due(d, run) <==> o.seals != [] && o.lines == [] && Fits(d, LedgerLineFrom(run, o.seals[|o.seals| - 1])))
      && (Pending(d, run) <==> o.seals != [] && o.lines == [])
      && (o.lines == [] <==> !LedgerHas(d.ledger, run))
      && (o.ends == [] <==> !JournalHasEnd(d.journal, run)) && o.marker == MarkerOf(d, run)
  {
    SealOfSeals(d.records[run].lines);
    hide SealsIn, LinesOf, EndsOf, SealOf, LedgerHas, JournalHasEnd, Fits, LedgerLineFrom;
  }

  /** What the next effect is, by how far the run is. */
  lemma NextIs(d: Disk, q: RunId, p: Proposal)
    requires q in d.records && Next(d, q, p).Some?
    ensures match Next(d, q, p).value
      case AppendSealed(r, _) => r == q && Sealed(d, q).None?
      case AppendLedger(l) => Due(d, l.run) && l == LedgerLineFrom(l.run, Sealed(d, l.run).value)
      case PutMarker(r, m) =>
        r == q && Sealed(d, q).Some? && !Due(d, q) && m == MarkerAfter(q, Sealed(d, q).value, MarkerOf(d, q))
        && m != MarkerOf(d, q)
      case AppendEnd(j) =>
        Sealed(d, q).Some? && !Due(d, q) && MarkerAfter(q, Sealed(d, q).value, MarkerOf(d, q)) == MarkerOf(d, q)
        && !JournalHasEnd(d.journal, q) && j == EndFrom(q, Sealed(d, q).value)
  {
    hide SealOf, MarkerAfter, LedgerHas, JournalHasEnd, SealedLineFor, MarkerOf, Fits;
  }

  /** What an effect does to what a run owns. */
  lemma OwnedAfter(d: Disk, run: RunId, e: Effect)
    requires run in d.records && (e.AppendSealed? ==> e.run in d.records) && (e.AppendEnd? ==> e.end.event == "end")
    ensures var o, o' := OwnedBy(d, run), OwnedBy(Apply(d, e), run);
      match e
      case AppendSealed(q, s) => o' == if q == run then o.(seals := o.seals + [s]) else o
      case AppendLedger(l) => o' == if l.run == run then o.(lines := o.lines + [l]) else o
      case PutMarker(q, m) => o' == if q == run then o.(marker := m) else o
      case AppendEnd(j) => o' == if j.run == run then o.(ends := o.ends + [j]) else o
  {
    match e {
      case AppendSealed(q, s) => SealsAppended(d.records[q].lines, s);
      case AppendLedger(l) => LinesAppended(d.ledger, l, run);
      case PutMarker(_, _) =>
      case AppendEnd(j) => EndAppended(d.journal, j, run);
    }
    hide SealsIn, LinesOf, EndsOf;
  }

  lemma SealsAppended(lines: seq<RecordLine>, s: SealedLine)
    ensures SealsIn(lines + [SealedRec(s)]) == SealsIn(lines) + [s]
  {
    assert (lines + [SealedRec(s)])[..|lines|] == lines;
  }

  lemma LinesAppended(ledger: seq<LedgerLine>, l: LedgerLine, run: RunId)
    ensures LinesOf(ledger + [l], run) == LinesOf(ledger, run) + (if l.run == run then [l] else [])
  {
    assert (ledger + [l])[..|ledger|] == ledger;
  }

  lemma EndAppended(journal: seq<JournalLine>, j: JournalLine, run: RunId)
    requires j.event == "end"
    ensures EndsOf(journal + [j], run) == EndsOf(journal, run) + (if j.run == run then [j] else [])
  {
    assert (journal + [j])[..|journal|] == journal;
  }

  /** The stage one effect of a run leads to. */
  function StageAt(run: RunId, e: Effect, stage: nat): nat {
    match e
    case AppendSealed(q, _) => if q == run then 1 else stage
    case AppendLedger(l) => if l.run == run then 2 else stage
    case PutMarker(q, _) => if q == run then 3 else stage
    case AppendEnd(j) => if j.run == run then 4 else stage
  }

  lemma StageSeal(run: RunId, m0: Option<Marker>, s: SealedLine, stage: nat, fits: bool, s': SealedLine, fits': bool)
    requires stage <= 4 && StageView(run, s, m0, stage, fits).seals == []
    ensures stage == 0
    ensures var o := StageView(run, s, m0, stage, fits);
      o.(seals := o.seals + [s']) == StageView(run, s', m0, 1, fits')
  {
    hide LedgerLineFrom, EndFrom, MarkerAfter;
    assert [] + [s'] == [s'];
  }

  lemma StageLine(run: RunId, m0: Option<Marker>, s: SealedLine, stage: nat)
    requires stage <= 4 && StageView(run, s, m0, stage, true).seals != [] && StageView(run, s, m0, stage, true).lines == []
    ensures stage == 1
    ensures var o := StageView(run, s, m0, stage, true);
      o.(lines := o.lines + [LedgerLineFrom(run, s)]) == StageView(run, s, m0, 2, true)
  {
    hide LedgerLineFrom, EndFrom, MarkerAfter;
    var l := LedgerLineFrom(run, s);
    assert [] + [l] == [l];
  }

  lemma StageMarker(run: RunId, m0: Option<Marker>, s: SealedLine, stage: nat, fits: bool)
    requires stage <= 4 && MarkerAfter(run, s, MarkerAfter(run, s, m0)) == MarkerAfter(run, s, m0)
    requires var o := StageView(run, s, m0, stage, fits);
      o.seals != [] && (o.lines != [] || !fits) && MarkerAfter(run, s, o.marker) != o.marker
    ensures stage <= 3
    ensures var o := StageView(run, s, m0, stage, fits);
      o.(marker := MarkerAfter(run, s, o.marker)) == StageView(run, s, m0, 3, fits)
  {
    hide LedgerLineFrom, EndFrom, MarkerAfter;
  }

  lemma StageEnd(run: RunId, m0: Option<Marker>, s: SealedLine, stage: nat, fits: bool)
    requires stage <= 4 && MarkerAfter(run, s, MarkerAfter(run, s, m0)) == MarkerAfter(run, s, m0)
    requires var o := StageView(run, s, m0, stage, fits);
      o.seals != [] && (o.lines != [] || !fits) && o.ends == [] && MarkerAfter(run, s, o.marker) == o.marker
    ensures var o := StageView(run, s, m0, stage, fits);
      o.(ends := o.ends + [EndFrom(run, s)]) == StageView(run, s, m0, 4, fits)
  {
    hide LedgerLineFrom, EndFrom, MarkerAfter;
    var j := EndFrom(run, s);
    assert [] + [j] == [j];
  }

  lemma StageSealed(run: RunId, m0: Option<Marker>, s: SealedLine, stage: nat, fits: bool)
    ensures var o := StageView(run, s, m0, stage, fits);
      o.seals == if stage >= 1 then [s] else []
  {
  }

  /** One durable effect moves a run on by stages, and never to another sealed line. */
  lemma StageMoves(d: Disk, run: RunId, p: Proposal, m0: Option<Marker>, s: SealedLine, stage: nat)
    returns (s': SealedLine, stage': nat)
    requires run in d.records && stage <= 4 && AtStage(d, run, m0, s, stage)
    requires Next(d, run, p).Some?
    ensures stage <= stage' <= 4 && AtStage(Apply(d, Next(d, run, p).value), run, m0, s', stage')
    ensures stage >= 1 ==> s' == s
  {
    var e, o, fits := Next(d, run, p).value, OwnedBy(d, run), Fits(d, LedgerLineFrom(run, s));
    OwnedTells(d, run);
    NextIs(d, run, p);
    OwnedAfter(d, run, e);
    MarkerSettles(run, s, m0);
    StageSealed(run, m0, s, stage, fits);
    s' := if e.AppendSealed? then e.sealed else s;
    stage' := StageAt(run, e, stage);
    var fits' := Fits(d, LedgerLineFrom(run, s'));
    assert forall l :: Fits(Apply(d, e), l) == Fits(d, l);
    assert forall r, x :: LedgerLineFrom(r, x).run == r && EndFrom(r, x).run == r;
    hide LedgerLineFrom, EndFrom, OwnedBy, Next, Sealed, MarkerAfter, LedgerHas, JournalHasEnd, Fits, MarkerOf, Pending, Due, Apply;
    hide StageView;
    match e {
      case AppendSealed(_, _) => StageSeal(run, m0, s, stage, fits, s', fits');
      case AppendLedger(l) =>
        if l.run == run {
          StageLine(run, m0, s, stage);
        }
      case PutMarker(_, _) => StageMarker(run, m0, s, stage, fits);
      case AppendEnd(_) => StageEnd(run, m0, s, stage, fits);
    }
  }

  lemma {:induction false} StageAfter(d: Disk, run: RunId, p: Proposal, n: nat, m0: Option<Marker>, s: SealedLine, stage: nat)
    returns (s': SealedLine, stage': nat)
    requires run in d.records && stage <= 4 && AtStage(d, run, m0, s, stage)
    ensures stage <= stage' <= 4 && AtStage(After(d, run, p, n), run, m0, s', stage')
    ensures stage >= 1 ==> s' == s
    decreases n
  {
    hide AtStage;
    hide Next;
    s', stage' := s, stage;
    if n > 0 && Next(d, run, p).Some? {
      s', stage' := StageMoves(d, run, p, m0, s, stage);
      s', stage' := StageAfter(Apply(d, Next(d, run, p).value), run, p, n - 1, m0, s', stage');
    }
  }

  /** In any history of interrupted attempts from a run that nothing has finished yet, a later step's
      effect is durable only with every earlier one, all of one sealed line, none of them twice. */
  lemma {:induction false} LaterImpliesEarlier(d: Disk, run: RunId, tries: seq<(Proposal, nat)>, s: SealedLine,
                                               stage: nat, m0: Option<Marker>)
    returns (s': SealedLine, stage': nat)
    requires run in d.records && stage <= 4 && AtStage(d, run, m0, s, stage)
    ensures stage <= stage' <= 4 && AtStage(Attempts(d, run, tries), run, m0, s', stage')
    ensures stage >= 1 ==> s' == s
    decreases |tries|
  {
    s', stage' := s, stage;
    if tries != [] {
      s', stage' := StageAfter(d, run, tries[0].0, tries[0].1, m0, s, stage);
      s', stage' := LaterImpliesEarlier(After(d, run, tries[0].0, tries[0].1), run, tries[1..], s', stage', m0);
    }
  }

  lemma DoneIsStageFour(d: Disk, run: RunId, p: Proposal, m0: Option<Marker>, s: SealedLine, stage: nat)
    requires run in d.records && stage <= 4 && AtStage(d, run, m0, s, stage)
    requires Next(d, run, p).None?
    ensures AtStage(d, run, m0, s, 4) && Sealed(d, run) == Some(s)
  {
    SealOfSeals(d.records[run].lines);
    MarkerSettles(run, s, m0);
  }

  /** The end state after any crashes: exactly one sealed line, one journal end, the marker action and, where
      it is one that can be read, one ledger line, all four saying what the sealed line says. */
  lemma FinishedExactlyOnce(d: Disk, run: RunId, tries: seq<(Proposal, nat)>, last: Proposal)
    requires run in d.records
    requires OwnedBy(d, run) == Owned([], [], MarkerOf(d, run), [])
    ensures var f := Finish(Attempts(d, run, tries), run, last);
      && Sealed(f, run).Some? && AtStage(f, run, MarkerOf(d, run), Sealed(f, run).value, 4)
      && var l := LedgerLineFrom(run, Sealed(f, run).value);
      LinesOf(f.ledger, run) == if Fits(f, l) then [l] else []
  {
    var m0 := MarkerOf(d, run);
    var any := SealedLineFor(d, run, last);
    assert AtStage(d, run, m0, any, 0);
    var a := Attempts(d, run, tries);
    var s, stage := LaterImpliesEarlier(d, run, tries, any, 0, m0);
    var t, stage' := StageAfter(a, run, last, Rank(a, run), m0, s, stage);
    FinishIsDone(a, run, last);
    DoneIsStageFour(Finish(a, run, last), run, last, m0, t, stage');
  }

  /** A complete or partial seal never takes away a marker that carries another run's id. */
  lemma ForeignMarkerKept(d: Disk, run: RunId, tries: seq<(Proposal, nat)>, last: Proposal, m: Marker)
    requires run in d.records
    requires OwnedBy(d, run) == Owned([], [], Some(m), [])
    requires m.nonce != "" && m.nonce != run
    ensures var f := Finish(Attempts(d, run, tries), run, last);
      Sealed(f, run).Some? && (Sealed(f, run).value.status in {Complete, Partial} ==> MarkerOf(f, run) == Some(m))
  {
    FinishedExactlyOnce(d, run, tries, last);
  }

  /** The sealed line is the winner's: its status, counts, stop and the digest of its sums. */
  lemma {:induction false} SealedAsProposed(d: Disk, run: RunId, p: Proposal, n: nat)
    requires run in d.records && Sealed(d, run).None?
    requires Sealed(After(d, run, p, n), run).Some?
    ensures var s := Sealed(After(d, run, p, n), run).value;
      s.status == p.status && s.counts == p.counts && s.stop == p.stop && s.fingerprint == Sha256(p.sums)
      && |s.parts| > 0 && s.parts[|s.parts| - 1] == run
    decreases n
  {
    hide FirstOwed;
    hide Resume;
    var e := Next(d, run, p).value;
    if e.AppendSealed? {
      SealsWhenAppended(d, run, p, n);
    } else {
      SealedAsProposed(Apply(d, e), run, p, n - 1);
    }
  }

  // ---- what the end state says

  /** The marker a seal leaves, field by field: a complete or partial one leaves none, unless it met one that
      carries another run's id; any other leaves the run's own, which says what was sealed. */
  ghost predicate MarkerSays(run: RunId, s: SealedLine, met: Option<Marker>, left: Option<Marker>) {
    && (s.status in {Complete, Partial} ==>
          left == if met.Some? && met.value.nonce != "" && met.value.nonce != run then met else None)
    && (s.status !in {Complete, Partial} ==>
          && left.Some? && left.value.nonce == run
          && left.value.exported == s.counts.exported && left.value.selected == s.counts.selected
          && (left.value.word == CancelledWord <==> s.status == Cancelled)
          && (left.value.word == StoppedWord <==> s.status != Cancelled)
          && left.value.rid == if s.stop.Some? then s.stop.value.rid else "")
  }

  /** The journal's end of a run, field by field. */
  ghost predicate EndSays(run: RunId, s: SealedLine, j: JournalLine) {
    && j.run == run && j.event == "end" && j.status == s.status && j.fingerprint == s.fingerprint
    && j.planned == s.counts.selected && j.exported == s.counts.exported && j.failed == s.counts.failed
    && (j.reason == "" <==> s.stop.None? || s.stop.value.rid == "")
    && (j.reason != "" ==> j.reason == s.stop.value.rid + ", " + s.stop.value.class_)
  }

  /** The ledger line of a run, field by field. */
  ghost predicate LineSays(run: RunId, s: SealedLine, l: LedgerLine) {
    && l.run == run && l.chain == s.chain && l.kind == SealedKind && l.status == Some(s.status)
    && l.fingerprint == Some(s.fingerprint) && l.setState == s.setState
    && l.setFingerprint == Some(s.setFingerprint) && l.parts == s.parts
  }

  lemma StepSays(run: RunId, s: SealedLine, m: Option<Marker>)
    ensures MarkerSays(run, s, m, MarkerAfter(run, s, m)) && EndSays(run, s, EndFrom(run, s))
    ensures LineSays(run, s, LedgerLineFrom(run, s))
  {
  }

  lemma {:induction false} WinnerSealed(d: Disk, run: RunId, p: Proposal)
    requires run in d.records && Sealed(d, run).None?
    ensures var s := Sealed(Finish(d, run, p), run);
      && s.Some? && s.value.status == p.status && s.value.counts == p.counts && s.value.stop == p.stop
      && s.value.fingerprint == Sha256(p.sums)
  {
    FinishIsDone(d, run, p);
    assert Sealed(Finish(d, run, p), run).Some?;
    SealedAsProposed(d, run, p, Rank(d, run));
  }

  /** Whatever attempts were cut off wherever, what is durable in the end is what the winning proposal says: its
      status, counts, stop and the digest of its sums are sealed; the marker is gone, kept or rewritten as that
      status asks; the journal's one end and the ledger's line, if it can be read, say the same. */
  lemma FinishedSays(d: Disk, run: RunId, tries: seq<(Proposal, nat)>, last: Proposal)
    requires run in d.records && OwnedBy(d, run) == Owned([], [], MarkerOf(d, run), [])
    ensures var f, p := Finish(Attempts(d, run, tries), run, last), Winner(d, run, tries, last);
      && Sealed(f, run).Some?
      && var s := Sealed(f, run).value;
      && s.status == p.status && s.counts == p.counts && s.stop == p.stop && s.fingerprint == Sha256(p.sums)
      && MarkerSays(run, s, MarkerOf(d, run), MarkerOf(f, run))
      && |EndsOf(f.journal, run)| == 1 && EndSays(run, s, EndsOf(f.journal, run)[0])
      && |LinesOf(f.ledger, run)| <= 1 && forall l :: l in LinesOf(f.ledger, run) ==> LineSays(run, s, l)
  {
    var f, m0 := Finish(Attempts(d, run, tries), run, last), MarkerOf(d, run);
    Converges(d, run, tries, last);
    OwnedTells(d, run);
    WinnerSealed(d, run, Winner(d, run, tries, last));
    FinishedExactlyOnce(d, run, tries, last);
    OwnedTells(f, run);
    StepSays(run, Sealed(f, run).value, m0);
    hide MarkerSays, EndSays, LineSays, MarkerAfter, EndFrom, LedgerLineFrom, Sealed, Finish, Attempts, Winner, Fits;
    hide SealsIn, MarkerOf;
  }
}
