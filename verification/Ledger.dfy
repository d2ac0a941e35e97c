/** The run record, the fingerprint ledger, the journal and the marker of the copy export,
    and what the seal-and-finish step makes of them, one durable effect at a time.

    A SHA-256 state is the text absorbed so far, so saving and resuming it are inverses, and a
    digest is an injective constructor over that text: two texts with one digest are one text. */
module Ledger {
  import opened Wrappers

  type RunId = string
  type ChainId = string

  datatype Digest = Sha256(absorbed: string)

  datatype Status = Complete | Partial | Cancelled | Failed | FinishedAsPartial

  datatype Counts = Counts(
    selected: int, exported: int, failed: int, notAttempted: int, withoutOriginal: int, originalOnly: int)

  datatype Stop = Stop(rid: string, class_: string)

  /** A saved hash state: none on a `gone` or `refused` line, and one that does not decode on a
      damaged line. */
  datatype SetState = NoState | Saved(absorbed: string) | Damaged

  datatype SealedLine = SealedLine(
    status: Status, counts: Counts, stop: Option<Stop>, chain: ChainId, fingerprint: Digest,
    setState: SetState, setFingerprint: Digest, parts: seq<RunId>)

  datatype RecordLine = SealedRec(line: SealedLine) | GoneRec

  datatype Record = Record(chain: ChainId, lines: seq<RecordLine>)

  datatype LineKind = SealedKind | GoneKind | RefusedKind

  datatype LedgerLine = LedgerLine(
    run: RunId, chain: ChainId, kind: LineKind, status: Option<Status>, fingerprint: Option<Digest>,
    setState: SetState, setFingerprint: Option<Digest>, parts: seq<RunId>)

  datatype JournalLine = JournalLine(
    run: RunId, event: string, status: Status, planned: int, exported: int, failed: int,
    fingerprint: Digest, reason: string)

  datatype Word = NotFinished | CancelledWord | StoppedWord

  /** A marker file: the run id of its first line ("" when none can be read) and what it says. */
  datatype Marker = Marker(nonce: RunId, word: Word, exported: int, selected: int, rid: string)

  /** What seal-and-finish reads and writes: the run records with the chain index, the ledger, the
      journal, and the marker of each run's folder; and how many bytes a time takes on a line. */
  datatype Disk = Disk(
    records: map<RunId, Record>, index: seq<RunId>, ledger: seq<LedgerLine>,
    journal: seq<JournalLine>, markers: map<RunId, Option<Marker>>, stamp: nat)

  /** What a finishing path proposes: the status, counts and stop, and the text of SHA256SUMS.txt. */
  datatype Proposal = Proposal(status: Status, counts: Counts, stop: Option<Stop>, sums: string)

  // ---- reading the logs

  /** The last sealed line of a record, as readSummary keeps it. */
  function SealOf(lines: seq<RecordLine>): (r: Option<SealedLine>)
    ensures r.Some? <==> exists i :: 0 <= i < |lines| && lines[i].SealedRec?
    ensures r.Some? ==> SealedRec(r.value) in lines
  {
    if lines == [] then None
    else if lines[|lines| - 1].SealedRec? then Some(lines[|lines| - 1].line)
    else SealOf(lines[..|lines| - 1])
  }

  function Sealed(d: Disk, run: RunId): Option<SealedLine> {
    if run in d.records then SealOf(d.records[run].lines) else None
  }

  predicate LedgerHas(ledger: seq<LedgerLine>, run: RunId) {
    exists i :: 0 <= i < |ledger| && ledger[i].run == run
  }

  predicate JournalHasEnd(journal: seq<JournalLine>, run: RunId) {
    exists i :: 0 <= i < |journal| && journal[i].run == run && journal[i].event == "end"
  }

  function MarkerOf(d: Disk, run: RunId): Option<Marker> {
    if run in d.markers then d.markers[run] else None
  }

  // ---- the length of a ledger line

  /** A ledger line is written up to here; what is cut is no line to a reader. */
  const LINE_CUT: nat := 4096

  /** A field of a line, with its name, its quotes and what separates it from the next. */
  function Field(name: string, bytes: nat): nat { |name| + bytes + 6 }

  function StatusBytes(s: Status): nat {
    match s
    case Complete => 8
    case Partial => 7
    case Cancelled => 9
    case Failed => 6
    case FinishedAsPartial => 19
  }

  function KindBytes(k: LineKind): nat {
    match k
    case SealedKind => 6
    case GoneKind => 4
    case RefusedKind => 7
  }

  function PartsBytes(parts: seq<RunId>): nat {
    if parts == [] then 0 else PartsBytes(parts[..|parts| - 1]) + |parts[|parts| - 1]| + 3
  }

  /** The bytes of a line, its time written in `stamp` of them: a digest is 64, a saved state 144, and a
      field with nothing in it is left out. */
  function LineBytes(l: LedgerLine, stamp: nat): nat {
    7 + Field("run", |l.run|) + Field("chain", |l.chain|) + Field("kind", KindBytes(l.kind)) + Field("at", stamp)
    + (if l.status.Some? then Field("status", StatusBytes(l.status.value)) else 0)
    + (if l.fingerprint.Some? then Field("fingerprint", 64) else 0)
    + (if l.setState == NoState then 0 else Field("set_state", 144))
    + (if l.setFingerprint.Some? then Field("set_fingerprint", 64) else 0)
    + (if l.parts == [] then 0 else 10 + PartsBytes(l.parts))
  }

  predicate Readable(l: LedgerLine, stamp: nat) { LineBytes(l, stamp) <= LINE_CUT }

  predicate Fits(d: Disk, l: LedgerLine) { Readable(l, d.stamp) }

  /** The ledger as it reads after a line was appended: a line past the cut is skipped by every reader. */
  function WithLine(d: Disk, l: LedgerLine): seq<LedgerLine> { if Fits(d, l) then d.ledger + [l] else d.ledger }

  /** A run is sealed and has no ledger line yet. */
  predicate Pending(d: Disk, run: RunId) {
    run in d.records && Sealed(d, run).Some? && !LedgerHas(d.ledger, run)
  }

  /** And its line is one that can be read. */
  predicate Due(d: Disk, run: RunId) { Pending(d, run) && Fits(d, LedgerLineFrom(run, Sealed(d, run).value)) }

  /** Another part of the chain is due its ledger line. */
  predicate Owed(d: Disk, run: RunId, chain: ChainId, self: RunId) {
    run != self && Due(d, run) && d.records[run].chain == chain
  }

  /** The first owed part from place i of the chain index on, |index| when there is none. */
  function FirstOwed(d: Disk, chain: ChainId, self: RunId, i: nat): (r: nat)
    requires i <= |d.index|
    ensures i <= r <= |d.index|
    ensures forall k :: i <= k < r ==> !Owed(d, d.index[k], chain, self)
    ensures r < |d.index| ==> Owed(d, d.index[r], chain, self)
    decreases |d.index| - i
  {
    if i == |d.index| || Owed(d, d.index[i], chain, self) then i else FirstOwed(d, chain, self, i + 1)
  }

  /** The chain's latest ledger line whose set state decodes: what it absorbed, and its parts. */
  function Resume(ledger: seq<LedgerLine>, chain: ChainId): (string, seq<RunId>) {
    if ledger == [] then ("", [])
    else
      var last := ledger[|ledger| - 1];
      if last.chain == chain && last.setState.Saved? then (last.setState.absorbed, last.parts)
      else Resume(ledger[..|ledger| - 1], chain)
  }

  // ---- what each step writes

  function SealedLineFor(d: Disk, run: RunId, p: Proposal): SealedLine
    requires run in d.records
  {
    var chain := d.records[run].chain;
    var (absorbed, parts) := Resume(d.ledger, chain);
    var state := absorbed + p.sums;
    SealedLine(p.status, p.counts, p.stop, chain, Sha256(p.sums), Saved(state), Sha256(state), parts + [run])
  }

  function LedgerLineFrom(run: RunId, s: SealedLine): LedgerLine {
    LedgerLine(run, s.chain, SealedKind, Some(s.status), Some(s.fingerprint), s.setState, Some(s.setFingerprint), s.parts)
  }

  function StopReason(stop: Option<Stop>): string {
    match stop
    case None => ""
    case Some(s) => if s.rid == "" then "" else s.rid + ", " + s.class_
  }

  function EndFrom(run: RunId, s: SealedLine): JournalLine {
    JournalLine(run, "end", s.status, s.counts.selected, s.counts.exported, s.counts.failed, s.fingerprint, StopReason(s.stop))
  }

  /** The marker action of a sealed status: complete and partial take the run's own marker away and
      leave one that carries another run's id; the rest rewrite it in place. */
  function MarkerAfter(run: RunId, s: SealedLine, m: Option<Marker>): Option<Marker> {
    match s.status
    case Complete | Partial =>
      if m.Some? && m.value.nonce != "" && m.value.nonce != run then m else None
    case _ =>
      var word := if s.status == Cancelled then CancelledWord else StoppedWord;
      var rid := if s.stop.Some? then s.stop.value.rid else "";
      Some(Marker(run, word, s.counts.exported, s.counts.selected, rid))
  }

  // ---- the step as a sequence of durable effects

  datatype Effect =
    | AppendSealed(run: RunId, sealed: SealedLine)
    | AppendLedger(line: LedgerLine)
    | PutMarker(owner: RunId, marker: Option<Marker>)
    | AppendEnd(end: JournalLine)

  /** The next durable effect of seal-and-finish that any reader sees, None when nothing is left to do. The
      ledger mutex is held, so what it reads stands until it writes. */
  function Next(d: Disk, run: RunId, p: Proposal): (e: Option<Effect>)
    requires run in d.records
    ensures e.Some? && e.value.AppendSealed? ==> e.value.run == run
  {
    var sealed := Sealed(d, run);
    if sealed.None? then
      var i := FirstOwed(d, d.records[run].chain, run, 0);
      if i < |d.index| then Some(AppendLedger(LedgerLineFrom(d.index[i], Sealed(d, d.index[i]).value)))
      else Some(AppendSealed(run, SealedLineFor(d, run, p)))
    else if Due(d, run) then Some(AppendLedger(LedgerLineFrom(run, sealed.value)))
    else if MarkerAfter(run, sealed.value, MarkerOf(d, run)) != MarkerOf(d, run) then
      Some(PutMarker(run, MarkerAfter(run, sealed.value, MarkerOf(d, run))))
    else if !JournalHasEnd(d.journal, run) then Some(AppendEnd(EndFrom(run, sealed.value)))
    else None
  }

  function AppendToRecord(d: Disk, run: RunId, line: RecordLine): Disk
    requires run in d.records
  {
    d.(records := d.records[run := d.records[run].(lines := d.records[run].lines + [line])])
  }

  function Apply(d: Disk, e: Effect): Disk
    requires e.AppendSealed? ==> e.run in d.records
  {
    match e
    case AppendSealed(run, s) => AppendToRecord(d, run, SealedRec(s))
    case AppendLedger(l) => d.(ledger := d.ledger + [l])
    case PutMarker(run, m) => d.(markers := d.markers[run := m])
    case AppendEnd(j) => d.(journal := d.journal + [j])
  }

  /** The disk after at most `steps` durable effects of seal-and-finish: a crash, or a failed write,
      stops it there. */
  function After(d: Disk, run: RunId, p: Proposal, steps: nat): (r: Disk)
    requires run in d.records
    ensures r.records.Keys == d.records.Keys && r.index == d.index && r.stamp == d.stamp
    decreases steps
  {
    if steps == 0 then d
    else
      match Next(d, run, p)
      case None => d
      case Some(e) => After(Apply(d, e), run, p, steps - 1)
  }
}
