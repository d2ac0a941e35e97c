/** The seal-and-finish step as the code runs it: the state directory's logs updated in place, one
    append after another, stopped after any durable effect by a crash or a failed write. */
module SealEngine {
  import opened Wrappers
  import opened Ledger

  lemma {:induction false} FirstOwedFrom(d: Disk, chain: ChainId, self: RunId, i: nat)
    requires i <= |d.index|
    requires forall k :: 0 <= k < i ==> !Owed(d, d.index[k], chain, self)
    ensures FirstOwed(d, chain, self, 0) == FirstOwed(d, chain, self, i)
  {
    var a, b := FirstOwed(d, chain, self, 0), FirstOwed(d, chain, self, i);
    assert a >= i;
    if a != b {
      assert false;
    }
  }

  /** One more effect at the end of a run of effects. */
  lemma {:induction false} AfterOneMore(d: Disk, run: RunId, p: Proposal, n: nat)
    requires run in d.records
    ensures var m := After(d, run, p, n);
      After(d, run, p, n + 1) == match Next(m, run, p) { case None => m case Some(e) => Apply(m, e) }
    decreases n
  {
    if n > 0 && Next(d, run, p).Some? {
      AfterOneMore(Apply(d, Next(d, run, p).value), run, p, n - 1);
    } else if n > 0 {
      assert After(d, run, p, n) == d;
    }
  }

  lemma AfterNone(d: Disk, run: RunId, p: Proposal)
    requires run in d.records
    ensures After(d, run, p, 0) == d
  {
  }

  lemma {:induction false} AfterStuck(d: Disk, run: RunId, p: Proposal, n: nat, k: nat)
    requires run in d.records && n <= k
    requires Next(After(d, run, p, n), run, p).None?
    ensures After(d, run, p, k) == After(d, run, p, n)
    decreases k
  {
    hide After;
    hide Next;
    if n < k {
      AfterStuck(d, run, p, n, k - 1);
      AfterOneMore(d, run, p, k - 1);
    }
  }

  /** Where no other part is owed its line the seal comes next. */
  lemma SealComes(d: Disk, run: RunId, p: Proposal)
    requires run in d.records && Sealed(d, run).None? && FirstOwed(d, d.records[run].chain, run, 0) == |d.index|
    ensures Next(d, run, p) == Some(AppendSealed(run, SealedLineFor(d, run, p)))
  {
    hide Sealed, FirstOwed, SealedLineFor;
  }

  class ExportEnv {
    var records: map<RunId, Record>
    var index: seq<RunId>
    var ledger: seq<LedgerLine>
    var journal: seq<JournalLine>
    var markers: map<RunId, Option<Marker>>
    var cuts: nat
    const stamp: nat

    /** What a reader of the files sees; `cuts` counts the ledger lines it cannot read. */
    function View(): Disk
      reads this
    {
      Disk(records, index, ledger, journal, markers, stamp)
    }

    /** readSummary's last sealed line. */
    method ReadSealed(run: RunId) returns (sealed: Option<SealedLine>)
      requires run in records
      ensures sealed == Sealed(View(), run)
    {
      var lines := records[run].lines;
      sealed := None;
      for i := 0 to |lines|
        invariant sealed == SealOf(lines[..i])
      {
        assert lines[..i + 1][..i] == lines[..i];
        if lines[i].SealedRec? {
          sealed := Some(lines[i].line);
        }
      }
      assert lines[..|lines|] == lines;
    }

    method HasLedgerLine(run: RunId) returns (has: bool)
      ensures has == LedgerHas(ledger, run)
    {
      for i := 0 to |ledger|
        invariant forall k :: 0 <= k < i ==> ledger[k].run != run
      {
        if ledger[i].run == run {
          return true;
        }
      }
      return false;
    }

    method HasEnd(run: RunId) returns (has: bool)
      ensures has == JournalHasEnd(journal, run)
    {
      for i := 0 to |journal|
        invariant forall k :: 0 <= k < i ==> !(journal[k].run == run && journal[k].event == "end")
      {
        if journal[i].run == run && journal[i].event == "end" {
          return true;
        }
      }
      return false;
    }

    /** The scan of sealedLine: from the newest line back to one whose state decodes. */
    method LatestState(chain: ChainId) returns (absorbed: string, parts: seq<RunId>)
      ensures (absorbed, parts) == Resume(ledger, chain)
    {
      absorbed, parts := "", [];
      var i := |ledger|;
      assert ledger[..i] == ledger;
      while i > 0
        invariant 0 <= i <= |ledger|
        invariant (absorbed, parts) == ("", [])
        invariant Resume(ledger, chain) == Resume(ledger[..i], chain)
      {
        i := i - 1;
        assert ledger[..i + 1][..i] == ledger[..i];
        if ledger[i].chain == chain && ledger[i].setState.Saved? {
          return ledger[i].setState.absorbed, ledger[i].parts;
        }
      }
    }

    method BuildSealedLine(run: RunId, p: Proposal) returns (s: SealedLine)
      requires run in records
      ensures s == SealedLineFor(View(), run, p)
    {
      var chain := records[run].chain;
      var absorbed, parts := LatestState(chain);
      var state := absorbed + p.sums;
      s := SealedLine(p.status, p.counts, p.stop, chain, Sha256(p.sums), Saved(state), Sha256(state), parts + [run]);
    }

    method RecordSeal(run: RunId, s: SealedLine)
      requires run in records
      modifies `records
      ensures View() == AppendToRecord(old(View()), run, SealedRec(s))
    {
      records := records[run := records[run].(lines := records[run].lines + [SealedRec(s)])];
    }

    /** appendJSONL on the ledger: what a line holds past the cut is not written, and what is left of it no
        reader can read. */
    method AppendLine(l: LedgerLine) returns (readable: bool)
      modifies `ledger, `cuts
      ensures readable == Fits(old(View()), l) && View() == old(View()).(ledger := WithLine(old(View()), l))
      ensures cuts == old(cuts) + if readable then 0 else 1
    {
      readable := LineBytes(l, stamp) <= LINE_CUT;
      if readable {
        ledger := ledger + [l];
      } else {
        cuts := cuts + 1;
      }
    }

    /** The ledger lines the chain's other sealed parts still lack, one append each; a line past the cut is
        written each time and never there. */
    method AppendMissingLedger(run: RunId, ghost p: Proposal, steps: nat) returns (left: nat, stopped: bool)
      requires run in records && Sealed(View(), run).None?
      modifies `ledger, `cuts
      ensures left <= steps
      ensures View() == After(old(View()), run, p, steps - left)
      ensures stopped ==> left == 0
      ensures !stopped ==> FirstOwed(View(), records[run].chain, run, 0) == |index|
    {
      hide After;
      left, stopped := steps, false;
      AfterNone(View(), run, p);
      var chain := records[run].chain;
      for i := 0 to |index|
        invariant left <= steps
        invariant View() == After(old(View()), run, p, steps - left)
        invariant records == old(records) && index == old(index)
        invariant forall k :: 0 <= k < i ==> !Owed(View(), index[k], chain, run)
      {
        ghost var before := View();
        var other := index[i];
        if other != run && other in records && records[other].chain == chain {
          var has := HasLedgerLine(other);
          var sealed := ReadSealed(other);
          if !has && sealed.Some? {
            var l := LedgerLineFrom(other, sealed.value);
            if left == 0 && Fits(View(), l) {
              return 0, true;
            }
            var readable := AppendLine(l);
            if readable {
              FirstOwedFrom(before, chain, run, i);
              AfterOneMore(old(View()), run, p, steps - left);
              left := left - 1;
              assert Next(before, run, p) == Some(AppendLedger(l));
              StillNotOwed(before, View(), chain, run, i);
            }
          }
        }
      }
      FirstOwedFrom(View(), chain, run, |index|);
    }

    /** The sealed line, once no other part is owed its line. */
    method Seal(run: RunId, p: Proposal, ghost start: Disk, ghost steps: nat) returns (s: SealedLine)
      requires run in records && run in start.records && Sealed(View(), run).None?
      requires FirstOwed(View(), records[run].chain, run, 0) == |index| && View() == After(start, run, p, steps)
      modifies `records
      ensures run in records && View() == After(start, run, p, steps + 1) && Sealed(View(), run) == Some(s)
    {
      s := BuildSealedLine(run, p);
      SealComes(View(), run, p);
      hide Next, FirstOwed, After, SealedLineFor;
      AfterOneMore(start, run, p, steps);
      SealOfAppended(records[run].lines, s);
      RecordSeal(run, s);
    }

    /** Step 6: the sealed line, unless it is already there. */
    method EnsureSealed(run: RunId, p: Proposal, steps: nat) returns (sealed: Option<SealedLine>, left: nat)
      requires run in records
      modifies `records, `ledger, `cuts
      ensures left <= steps && run in records
      ensures Sealed(old(View()), run).Some? ==> View() == old(View()) && cuts == old(cuts)
      ensures View() == After(old(View()), run, p, steps - left)
      ensures sealed.Some? ==> Sealed(View(), run) == sealed
      ensures sealed.None? ==> left == 0 && Sealed(View(), run).None?
    {
      hide After, Readable, SealedLineFor, MarkerAfter, LedgerHas;
      left := steps;
      AfterNone(View(), run, p);
      sealed := ReadSealed(run);
      if sealed.None? {
        var stopped;
        left, stopped := AppendMissingLedger(run, p, left);
        if stopped || left == 0 {
          return None, 0;
        }
        var s := Seal(run, p, old(View()), steps - left);
        sealed, left := Some(s), left - 1;
      }
    }

    /** Step 7: the ledger line, once per run id where it can be read, and once more each time where not. */
    method EnsureLedgerLine(run: RunId, s: SealedLine, ghost start: Disk, ghost p: Proposal, steps: nat, left0: nat)
      returns (written: bool, left: nat)
      requires run in records && run in start.records && left0 <= steps
      requires View() == After(start, run, p, steps - left0)
      requires Sealed(View(), run) == Some(s)
      modifies `ledger, `cuts
      ensures left <= left0
      ensures View() == After(start, run, p, steps - left)
      ensures written ==> !Due(View(), run)
      ensures written ==>
                cuts == old(cuts) + if Pending(old(View()), run) && !Due(old(View()), run) then 1 else 0
      ensures !written ==> left == 0 && Due(View(), run) && Sealed(View(), run) == Some(s)
    {
      hide After;
      left := left0;
      var l := LedgerLineFrom(run, s);
      var there := HasLedgerLine(run);
      if there {
        return true, left;
      }
      if left == 0 && Fits(View(), l) {
        return false, 0;
      }
      var readable := AppendLine(l);
      if readable {
        AfterOneMore(start, run, p, steps - left);
        LedgerHasAppended(old(ledger), l);
        left := left - 1;
      }
      written := true;
    }

    /** The whole step: at most `steps` durable effects, then it is cut off. */
    method SealAndFinish(run: RunId, p: Proposal, steps: nat) returns (done: bool)
      requires run in records
      modifies this
      ensures View() == After(old(View()), run, p, steps)
      ensures done <==> Next(View(), run, p).None?
      ensures done && Pending(old(View()), run) ==> cuts == old(cuts) + if Due(old(View()), run) then 0 else 1
    {
      hide After;
      hide Next;
      ghost var start := View();
      var sealed, left := EnsureSealed(run, p, steps);
      if sealed.None? {
        SomethingLeft(View(), run, p);
        return false;
      }
      var written;
      written, left := EnsureLedgerLine(run, sealed.value, start, p, steps, left);
      if !written {
        SomethingLeft(View(), run, p);
        return false;
      }
      var acted;
      acted, left := MarkerAction(run, sealed.value, start, p, steps, left);
      if !acted {
        SomethingLeft(View(), run, p);
        return false;
      }
      done, left := EndJournal(run, sealed.value, start, p, steps, left);
      if done {
        AfterStuck(start, run, p, steps - left, steps);
      }
    }

    /** Step 8: the marker action, as the sealed status says. */
    method MarkerAction(run: RunId, s: SealedLine, ghost start: Disk, ghost p: Proposal, steps: nat, left0: nat)
      returns (acted: bool, left: nat)
      requires run in records && run in start.records && left0 <= steps
      requires View() == After(start, run, p, steps - left0)
      requires Sealed(View(), run) == Some(s) && !Due(View(), run)
      modifies `markers
      ensures left <= left0
      ensures View() == After(start, run, p, steps - left)
      ensures acted <==> MarkerAfter(run, s, MarkerOf(View(), run)) == MarkerOf(View(), run)
      ensures !acted ==> left == 0 && Sealed(View(), run) == Some(s) && !Due(View(), run)
    {
      hide After;
      left := left0;
      AfterOneMore(start, run, p, steps - left);
      var now := if run in markers then markers[run] else None;
      var target := MarkerAfter(run, s, now);
      if target != now {
        if left == 0 {
          return false, 0;
        }
        MarkerSettles(run, s, now);
        markers := markers[run := target];
        left := left - 1;
      }
      acted := true;
    }

    /** Step 9: the journal end, unless it is there. */
    method EndJournal(run: RunId, s: SealedLine, ghost start: Disk, ghost p: Proposal, steps: nat, left0: nat)
      returns (done: bool, left: nat)
      requires run in records && run in start.records && left0 <= steps
      requires View() == After(start, run, p, steps - left0)
      requires Sealed(View(), run) == Some(s) && !Due(View(), run)
      requires MarkerAfter(run, s, MarkerOf(View(), run)) == MarkerOf(View(), run)
      modifies `journal
      ensures left <= left0
      ensures View() == After(start, run, p, steps - left)
      ensures done <==> Next(View(), run, p).None?
      ensures !done ==> left == 0
    {
      hide After;
      hide MarkerAfter;
      left := left0;
      done := HasEnd(run);
      if !done && left > 0 {
        AfterOneMore(start, run, p, steps - left);
        JournalHasEndAppended(journal, EndFrom(run, s));
        journal := journal + [EndFrom(run, s)];
        done, left := true, left - 1;
      }
    }
  }

  lemma JournalHasEndAppended(journal: seq<JournalLine>, l: JournalLine)
    requires l.event == "end"
    ensures JournalHasEnd(journal + [l], l.run)
  {
    assert (journal + [l])[|journal|] == l;
  }

  lemma SomethingLeft(d: Disk, run: RunId, p: Proposal)
    requires run in d.records
    requires Sealed(d, run).None? || Due(d, run)
             || MarkerAfter(run, Sealed(d, run).value, MarkerOf(d, run)) != MarkerOf(d, run)
    ensures Next(d, run, p).Some?
  {
    hide MarkerAfter, SealedLineFor, Readable;
  }

  lemma StillNotOwed(a: Disk, b: Disk, chain: ChainId, self: RunId, i: nat)
    requires i < |a.index| && a.index == b.index && a.records == b.records && a.stamp == b.stamp
    requires |b.ledger| == |a.ledger| + 1 && b.ledger[..|a.ledger|] == a.ledger
    requires b.ledger[|a.ledger|].run == a.index[i]
    requires forall k :: 0 <= k < i ==> !Owed(a, a.index[k], chain, self)
    ensures forall k :: 0 <= k <= i ==> !Owed(b, b.index[k], chain, self)
  {
    assert LedgerHas(b.ledger, a.index[i]);
    forall k | 0 <= k < i ensures !Owed(b, b.index[k], chain, self) {
      if LedgerHas(a.ledger, a.index[k]) {
        var j :| 0 <= j < |a.ledger| && a.ledger[j].run == a.index[k];
        assert b.ledger[j] == a.ledger[j];
      }
    }
  }

  lemma SealOfAppended(lines: seq<RecordLine>, s: SealedLine)
    ensures SealOf(lines + [SealedRec(s)]) == Some(s)
  {
    assert (lines + [SealedRec(s)])[|lines|] == SealedRec(s);
  }

  lemma LedgerHasAppended(ledger: seq<LedgerLine>, l: LedgerLine)
    ensures LedgerHas(ledger + [l], l.run)
  {
    assert (ledger + [l])[|ledger|] == l;
  }

  /** The marker action leaves a marker it would leave again. */
  lemma MarkerSettles(run: RunId, s: SealedLine, m: Option<Marker>)
    ensures MarkerAfter(run, s, MarkerAfter(run, s, m)) == MarkerAfter(run, s, m)
  {
  }
}
