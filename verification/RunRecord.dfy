/** The passes over a run record: the counts, the manifest's three lists and the final status, all
    from one log in which an amendment replaces the line it amends. */
module RunRecord {
  import opened Wrappers
  import Ledger

  datatype MsgStatus = Exported | WithoutOriginal | OriginalOnly | FailedMsg | NotAttempted

  datatype Role =
    | Original | ArchivedPage | ArchivedZip | QuarantinedPage
    | DerivedHTML | DerivedAttachment | DerivedAttachmentsZip

  datatype FileRec = FileRec(path: string, role: Role, sha: string, size: nat)

  /** A note of a message: what was said when it was exported, or what its finish found of its derived files. */
  datatype Note = Said(text: string) | ReadableLost(why: string) | AttachmentLost(path: string, why: string)

  datatype Msg = Msg(
    n: nat, status: MsgStatus, retryable: bool, reason: string, files: seq<FileRec>, notes: seq<Note>, amend: bool)

  datatype Line = PlanLine(n: nat, id: string) | MsgLine(m: Msg) | OtherLine

  predicate Listed(s: MsgStatus) { s == Exported || s == WithoutOriginal || s == OriginalOnly }

  // ---- what the lines mean

  /** The amendments of a record: the last one of a message wins. */
  function Amendments(lines: seq<Line>): (r: map<nat, Msg>)
    ensures forall n :: n in r ==> r[n].n == n && r[n].amend
  {
    if lines == [] then map[]
    else
      var last, front := lines[|lines| - 1], Amendments(lines[..|lines| - 1]);
      if last.MsgLine? && last.m.amend then front[last.m.n := last.m] else front
  }

  /** The message lines that are not amendments, in the order written. */
  function FirstLines(lines: seq<Line>): (r: seq<Msg>)
    ensures forall i :: 0 <= i < |r| ==> !r[i].amend
  {
    if lines == [] then []
    else
      var last, front := lines[|lines| - 1], FirstLines(lines[..|lines| - 1]);
      if last.MsgLine? && !last.m.amend then front + [last.m] else front
  }

  /** The numbers of the plan lines, in the order written. */
  function PlanNumbers(lines: seq<Line>): seq<nat> {
    if lines == [] then []
    else
      var last, front := lines[|lines| - 1], PlanNumbers(lines[..|lines| - 1]);
      if last.PlanLine? then front + [last.n] else front
  }

  function Amended(m: Msg, amend: map<nat, Msg>): Msg {
    if m.n in amend then amend[m.n] else m
  }

  /** The effective lines a record's passes visit. */
  function Effective(lines: seq<Line>): (r: seq<Msg>)
    ensures |r| == |FirstLines(lines)|
    ensures forall i :: 0 <= i < |r| ==> r[i].n == FirstLines(lines)[i].n
  {
    var amend, first := Amendments(lines), FirstLines(lines);
    seq(|first|, i requires 0 <= i < |first| => Amended(first[i], amend))
  }

  /** Lines of distinct planned messages, in plan order. */
  ghost predicate Increasing(ms: seq<Msg>, planned: nat) {
    && (forall i :: 0 <= i < |ms| ==> 1 <= ms[i].n <= planned)
    && (forall i, j :: 0 <= i < j < |ms| ==> ms[i].n < ms[j].n)
  }

  /** The record as the run writes it: the plan numbered from 1, the messages' lines in plan order,
      and amendments only of messages that have a line. */
  ghost predicate WellFormed(planned: nat, lines: seq<Line>) {
    var first, plans := FirstLines(lines), PlanNumbers(lines);
    && |plans| == planned && (forall i :: 0 <= i < planned ==> plans[i] == i + 1)
    && Increasing(first, planned)
    && (forall n :: n in Amendments(lines) ==> exists i :: 0 <= i < |first| && first[i].n == n)
  }

  /** The effective line of one message, None when it was never attempted. */
  function LineOf(ms: seq<Msg>, n: nat): (r: Option<Msg>)
    ensures r.None? ==> forall i :: 0 <= i < |ms| ==> ms[i].n != n
    ensures r.Some? ==> r.value in ms && r.value.n == n
  {
    if ms == [] then None else if ms[0].n == n then Some(ms[0]) else LineOf(ms[1..], n)
  }

  // ---- counting

  function CountStatus(ms: seq<Msg>, s: MsgStatus): nat {
    if ms == [] then 0 else CountStatus(ms[..|ms| - 1], s) + (if ms[|ms| - 1].status == s then 1 else 0)
  }

  function CountsOf(planned: nat, ms: seq<Msg>): Ledger.Counts {
    Ledger.Counts(planned,
           CountStatus(ms, Exported) + CountStatus(ms, WithoutOriginal) + CountStatus(ms, OriginalOnly),
           CountStatus(ms, FailedMsg),
           CountStatus(ms, NotAttempted) + planned - |ms|,
           CountStatus(ms, WithoutOriginal),
           CountStatus(ms, OriginalOnly))
  }

  /** The pass that collects the amendments. */
  method ReadAmendments(lines: seq<Line>) returns (amend: map<nat, Msg>)
    ensures amend == Amendments(lines)
  {
    amend := map[];
    for i := 0 to |lines|
      invariant amend == Amendments(lines[..i])
    {
      assert lines[..i + 1][..i] == lines[..i];
      if lines[i].MsgLine? && lines[i].m.amend {
        amend := amend[lines[i].m.n := lines[i].m];
      }
    }
    assert lines[..|lines|] == lines;
  }

  /** The counts over the lines seen so far, before the messages with no line are added. */
  function Tally(planned: nat, ms: seq<Msg>): Ledger.Counts {
    CountsOf(planned, ms).(notAttempted := CountStatus(ms, NotAttempted))
  }

  function TallyOne(c: Ledger.Counts, s: MsgStatus): Ledger.Counts {
    match s
    case NotAttempted => c.(notAttempted := c.notAttempted + 1)
    case FailedMsg => c.(failed := c.failed + 1)
    case WithoutOriginal => c.(exported := c.exported + 1, withoutOriginal := c.withoutOriginal + 1)
    case OriginalOnly => c.(exported := c.exported + 1, originalOnly := c.originalOnly + 1)
    case Exported => c.(exported := c.exported + 1)
  }

  lemma TallyMore(planned: nat, ms: seq<Msg>, m: Msg)
    ensures Tally(planned, ms + [m]) == TallyOne(Tally(planned, ms), m.status)
  {
    assert (ms + [m])[..|ms|] == ms;
  }

  /** countRecord: one pass for the amendments, one for the effective lines. */
  method CountRecord(planned: nat, lines: seq<Line>) returns (c: Ledger.Counts)
    ensures c == CountsOf(planned, Effective(lines))
  {
    hide CountsOf, Tally, AmendAll, Effective, Amendments, TallyOne;
    var amend := ReadAmendments(lines);
    c := Ledger.Counts(planned, 0, 0, 0, 0, 0);
    var seen := 0;
    ghost var ms: seq<Msg> := [];
    TallyNone(planned);
    for i := 0 to |lines|
      invariant ms == AmendAll(FirstLines(lines[..i]), amend)
      invariant c == Tally(planned, ms)
      invariant seen == |ms|
    {
      assert lines[..i + 1][..i] == lines[..i];
      if lines[i].MsgLine? && !lines[i].m.amend {
        var m := if lines[i].m.n in amend then amend[lines[i].m.n] else lines[i].m;
        seen := seen + 1;
        c := TallyOne(c, m.status);
        TallyMore(planned, ms, m);
        AmendOneMore(FirstLines(lines[..i]), lines[i].m, amend);
        ms := ms + [m];
      }
    }
    assert lines[..|lines|] == lines;
    EffectiveIs(lines);
    TallyEnd(planned, ms);
    c := c.(notAttempted := c.notAttempted + c.selected - seen);
  }

  lemma TallyNone(planned: nat)
    ensures Tally(planned, []) == Ledger.Counts(planned, 0, 0, 0, 0, 0)
  {
  }

  lemma TallyEnd(planned: nat, ms: seq<Msg>)
    ensures var c := Tally(planned, ms);
      c.selected == planned && CountsOf(planned, ms) == c.(notAttempted := c.notAttempted + planned - |ms|)
  {
  }

  lemma EffectiveIs(lines: seq<Line>)
    ensures AmendAll(FirstLines(lines), Amendments(lines)) == Effective(lines)
    ensures |AmendAll(FirstLines(lines), Amendments(lines))| == |FirstLines(lines)|
  {
  }

  lemma AmendOneMore(first: seq<Msg>, m: Msg, amend: map<nat, Msg>)
    ensures AmendAll(first + [m], amend) == AmendAll(first, amend) + [Amended(m, amend)]
  {
    assert (first + [m])[..|first|] == first;
  }

  function AmendAll(first: seq<Msg>, amend: map<nat, Msg>): (r: seq<Msg>)
    ensures |r| == |first|
    ensures forall i :: 0 <= i < |first| ==> r[i] == Amended(first[i], amend)
  {
    if first == [] then []
    else AmendAll(first[..|first| - 1], amend) + [Amended(first[|first| - 1], amend)]
  }

  // ---- the manifest's passes

  datatype Pair = Pair(n: nat, line: Option<Msg>)

  function MergedPairs(planned: nat, ms: seq<Msg>): (r: seq<Pair>)
    ensures |r| == planned
    ensures forall i :: 0 <= i < planned ==> r[i] == Pair(i + 1, LineOf(ms, i + 1))
  {
    if planned == 0 then [] else MergedPairs(planned - 1, ms) + [Pair(planned, LineOf(ms, planned))]
  }

  function AmendedLine(msgs: seq<Msg>, amend: map<nat, Msg>, n: nat): Option<Msg> {
    if n in amend then Some(amend[n]) else LineOf(msgs, n)
  }

  /** What the merge takes for message n when the first `used` lines belong to earlier messages. */
  lemma MergeStep(msgs: seq<Msg>, planned: nat, used: nat, n: nat, amend: map<nat, Msg>)
    requires Increasing(msgs, planned) && used <= |msgs|
    requires used > 0 ==> msgs[used - 1].n < n
    requires used < |msgs| ==> msgs[used].n >= n
    ensures AmendedLine(msgs, amend, n)
      == if n in amend then Some(amend[n]) else if used < |msgs| && msgs[used].n == n then Some(msgs[used]) else None
    ensures used + 1 < |msgs| ==> msgs[used + 1].n > n
  {
    if used < |msgs| && msgs[used].n == n {
      LineOfUnique(msgs, used);
    } else {
      forall k | 0 <= k < |msgs| ensures msgs[k].n != n {
        assert k < used - 1 ==> msgs[k].n < msgs[used - 1].n;
        assert used < k ==> msgs[used].n < msgs[k].n;
      }
    }
  }

  /** The merge of walkMessages: one cursor over the plan, one over the progress, a line read ahead
      kept until its message comes. */
  method MergeLines(planned: nat, plans: seq<nat>, msgs: seq<Msg>, amend: map<nat, Msg>) returns (pairs: seq<Pair>)
    requires |plans| == planned && forall i :: 0 <= i < planned ==> plans[i] == i + 1
    requires Increasing(msgs, planned)
    ensures |pairs| == planned
    ensures forall i :: 0 <= i < planned ==> pairs[i] == Pair(i + 1, AmendedLine(msgs, amend, i + 1))
  {
    hide AmendedLine;
    hide Increasing;
    pairs := [];
    var pending: Option<Msg> := None;
    var next := 0;
    ghost var used := 0;
    FirstAtLeastOne(msgs, planned);
    for i := 0 to |plans|
      invariant used <= next <= |msgs| && |pairs| == i
      invariant next == if pending.Some? then used + 1 else used
      invariant pending.Some? ==> pending.value == msgs[used]
      invariant used > 0 ==> msgs[used - 1].n < i + 1
      invariant used < |msgs| ==> msgs[used].n >= i + 1
      invariant forall k :: 0 <= k < i ==> pairs[k] == Pair(k + 1, AmendedLine(msgs, amend, k + 1))
    {
      MergeStep(msgs, planned, used, i + 1, amend);
      if pending.None? && next < |msgs| {
        pending, next := Some(msgs[next]), next + 1;
      }
      var m: Option<Msg> := None;
      if pending.Some? && pending.value.n == plans[i] {
        m, pending, used := pending, None, used + 1;
      }
      if plans[i] in amend {
        m := Some(amend[plans[i]]);
      }
      pairs := pairs + [Pair(plans[i], m)];
    }
  }

  lemma SomePlanned(ms: seq<Msg>, planned: nat)
    requires Increasing(ms, planned)
    ensures ms != [] ==> planned >= 1
  {
    if ms != [] {
      assert 1 <= ms[0].n <= planned;
    }
  }

  lemma LastIsLargest(ms: seq<Msg>, planned: nat, k: nat)
    requires Increasing(ms, planned) && k < |ms|
    ensures k == |ms| - 1 || ms[k].n < ms[|ms| - 1].n
  {
  }

  lemma FirstAtLeastOne(msgs: seq<Msg>, planned: nat)
    requires Increasing(msgs, planned)
    ensures msgs != [] ==> msgs[0].n >= 1
  {
  }

  /** walkMessages: every planned message once, in plan order, with its effective line. */
  method WalkMessages(planned: nat, lines: seq<Line>) returns (pairs: seq<Pair>)
    requires WellFormed(planned, lines)
    ensures pairs == MergedPairs(planned, Effective(lines))
  {
    pairs := MergeLines(planned, PlanNumbers(lines), FirstLines(lines), Amendments(lines));
    forall n | 1 <= n <= planned
      ensures LineOf(Effective(lines), n) == AmendedLine(FirstLines(lines), Amendments(lines), n)
    {
      LineOfMerged(planned, lines, n);
    }
  }

  lemma LineOfMerged(planned: nat, lines: seq<Line>, n: nat)
    requires WellFormed(planned, lines)
    ensures LineOf(Effective(lines), n) == AmendedLine(FirstLines(lines), Amendments(lines), n)
  {
    var first, ms := FirstLines(lines), Effective(lines);
    var r := LineOf(first, n);
    if r.Some? {
      var k :| 0 <= k < |first| && first[k] == r.value;
      LineOfUnique(ms, k);
    } else {
      LineOfNone(ms, n);
    }
  }

  lemma LineOfNone(ms: seq<Msg>, n: nat)
    requires forall i :: 0 <= i < |ms| ==> ms[i].n != n
    ensures LineOf(ms, n).None?
  {
  }

  lemma {:induction false} LineOfUnique(ms: seq<Msg>, k: nat)
    requires k < |ms| && forall i, j :: 0 <= i < j < |ms| ==> ms[i].n < ms[j].n
    ensures LineOf(ms, ms[k].n) == Some(ms[k])
    decreases |ms|
  {
    if k > 0 {
      assert ms[0].n < ms[k].n;
      LineOfUnique(ms[1..], k - 1);
    }
  }

  datatype ListKind = AllMessages | Failures | NotAttemptedOnes

  /** Which of the manifest's lists takes a message. */
  predicate Takes(kind: ListKind, m: Option<Msg>) {
    match kind
    case AllMessages => true
    case Failures => m.Some? && m.value.status == FailedMsg
    case NotAttemptedOnes => m.None? || m.value.status == NotAttempted
  }

  function ListNumbers(pairs: seq<Pair>, kind: ListKind): seq<nat> {
    if pairs == [] then []
    else
      var last := pairs[|pairs| - 1];
      ListNumbers(pairs[..|pairs| - 1], kind) + (if Takes(kind, last.line) then [last.n] else [])
  }

  /** One pass of writeManifest. */
  method ManifestPass(planned: nat, lines: seq<Line>, kind: ListKind) returns (ns: seq<nat>)
    requires WellFormed(planned, lines)
    ensures ns == ListNumbers(MergedPairs(planned, Effective(lines)), kind)
  {
    var pairs := WalkMessages(planned, lines);
    ns := [];
    for i := 0 to |pairs|
      invariant ns == ListNumbers(pairs[..i], kind)
    {
      assert pairs[..i + 1][..i] == pairs[..i];
      if Takes(kind, pairs[i].line) {
        ns := ns + [pairs[i].n];
      }
    }
    assert pairs[..|pairs|] == pairs;
  }

  // ---- the passes agree

  function CountTaken(ms: seq<Msg>, kind: ListKind): nat {
    if ms == [] then 0 else CountTaken(ms[..|ms| - 1], kind) + (if Takes(kind, Some(ms[|ms| - 1])) then 1 else 0)
  }

  lemma EffectiveIncreasing(planned: nat, lines: seq<Line>)
    requires WellFormed(planned, lines)
    ensures Increasing(Effective(lines), planned)
  {
  }

  lemma {:induction false} LineOfFront(ms: seq<Msg>, n: nat)
    requires ms != [] && ms[|ms| - 1].n != n
    ensures LineOf(ms, n) == LineOf(ms[..|ms| - 1], n)
    decreases |ms|
  {
    if |ms| > 1 {
      assert ms[1..][..|ms| - 2] == ms[..|ms| - 1][1..];
      LineOfFront(ms[1..], n);
    }
  }

  lemma {:induction false} PairsSame(planned: nat, ms: seq<Msg>, ms': seq<Msg>)
    requires forall i :: 1 <= i <= planned ==> LineOf(ms, i) == LineOf(ms', i)
    ensures MergedPairs(planned, ms) == MergedPairs(planned, ms')
    decreases planned
  {
    if planned > 0 {
      PairsSame(planned - 1, ms, ms');
    }
  }

  lemma ListOneMore(planned: nat, ms: seq<Msg>, kind: ListKind)
    requires planned > 0
    ensures |ListNumbers(MergedPairs(planned, ms), kind)|
      == |ListNumbers(MergedPairs(planned - 1, ms), kind)| + (if Takes(kind, LineOf(ms, planned)) then 1 else 0)
  {
    assert MergedPairs(planned, ms)[..planned - 1] == MergedPairs(planned - 1, ms);
  }

  lemma DropLastLine(planned: nat, ms: seq<Msg>)
    requires Increasing(ms, planned) && planned > 0 && ms != [] && ms[|ms| - 1].n == planned
    ensures Increasing(ms[..|ms| - 1], planned - 1)
    ensures LineOf(ms, planned) == Some(ms[|ms| - 1])
    ensures MergedPairs(planned - 1, ms) == MergedPairs(planned - 1, ms[..|ms| - 1])
  {
    LineOfUnique(ms, |ms| - 1);
    forall i | 1 <= i <= planned - 1 ensures LineOf(ms, i) == LineOf(ms[..|ms| - 1], i) {
      LineOfFront(ms, i);
    }
    PairsSame(planned - 1, ms, ms[..|ms| - 1]);
  }

  /** A list over the plan against a count over the lines: the messages with no line make the difference. */
  lemma {:induction false} ListAgainstCount(planned: nat, ms: seq<Msg>, kind: ListKind)
    requires Increasing(ms, planned)
    ensures |ms| <= planned
    ensures |ListNumbers(MergedPairs(planned, ms), kind)|
      == CountTaken(ms, kind) + (if Takes(kind, None) then planned - |ms| else 0)
    decreases planned
  {
    hide MergedPairs;
    hide LineOf;
    if planned == 0 {
      SomePlanned(ms, planned);
    } else {
      ListOneMore(planned, ms, kind);
      if ms != [] && ms[|ms| - 1].n == planned {
        DropLastLine(planned, ms);
        ListAgainstCount(planned - 1, ms[..|ms| - 1], kind);
      } else {
        NoLineAt(ms, planned);
        ListAgainstCount(planned - 1, ms, kind);
      }
    }
  }

  lemma NoLineAt(ms: seq<Msg>, planned: nat)
    requires Increasing(ms, planned) && planned > 0 && (ms != [] ==> ms[|ms| - 1].n != planned)
    ensures LineOf(ms, planned).None? && Increasing(ms, planned - 1)
  {
    forall i | 0 <= i < |ms| ensures ms[i].n <= planned - 1 {
      LastIsLargest(ms, planned, i);
    }
  }

  lemma {:induction false} TakenByStatus(ms: seq<Msg>)
    ensures CountTaken(ms, AllMessages) == |ms|
    ensures CountTaken(ms, Failures) == CountStatus(ms, FailedMsg)
    ensures CountTaken(ms, NotAttemptedOnes) == CountStatus(ms, NotAttempted)
    ensures CountStatus(ms, Exported) + CountStatus(ms, WithoutOriginal) + CountStatus(ms, OriginalOnly)
      + CountStatus(ms, FailedMsg) + CountStatus(ms, NotAttempted) == |ms|
  {
    if ms != [] {
      TakenByStatus(ms[..|ms| - 1]);
    }
  }

  function CountListed(ms: seq<Msg>): nat {
    if ms == [] then 0 else CountListed(ms[..|ms| - 1]) + (if Listed(ms[|ms| - 1].status) then 1 else 0)
  }

  lemma {:induction false} ListedCounted(ms: seq<Msg>)
    ensures CountListed(ms) == CountStatus(ms, Exported) + CountStatus(ms, WithoutOriginal) + CountStatus(ms, OriginalOnly)
  {
    if ms != [] {
      ListedCounted(ms[..|ms| - 1]);
    }
  }

  /** Conservation: every planned message is exported, failed or not attempted in the counts, those exported are
      those whose files are listed, and the manifest's three lists have exactly as many entries as the counts say. */
  lemma PassesAgree(planned: nat, lines: seq<Line>)
    requires WellFormed(planned, lines)
    ensures var ms := Effective(lines);
      var c, pairs := CountsOf(planned, ms), MergedPairs(planned, ms);
      && c.selected == planned == c.exported + c.failed + c.notAttempted && c.notAttempted >= 0
      && c.exported == CountListed(ms)
      && c.withoutOriginal == CountStatus(ms, WithoutOriginal) && c.originalOnly == CountStatus(ms, OriginalOnly)
      && |ListNumbers(pairs, AllMessages)| == c.selected
      && |ListNumbers(pairs, Failures)| == c.failed
      && |ListNumbers(pairs, NotAttemptedOnes)| == c.notAttempted
  {
    hide LineOf;
    var ms := Effective(lines);
    EffectiveIncreasing(planned, lines);
    hide WellFormed;
    TakenByStatus(ms);
    ListedCounted(ms);
    ListAgainstCount(planned, ms, AllMessages);
    ListAgainstCount(planned, ms, Failures);
    ListAgainstCount(planned, ms, NotAttemptedOnes);
  }

  // ---- the final status

  function FinalStatus(proposed: Ledger.Status, c: Ledger.Counts): Ledger.Status {
    if proposed == Ledger.Complete && (c.failed > 0 || c.notAttempted > 0 || c.originalOnly > 0) then Ledger.Partial else proposed
  }

  lemma {:induction false} NoneWithStatus(ms: seq<Msg>, s: MsgStatus, i: nat)
    requires i < |ms| && CountStatus(ms, s) == 0
    ensures ms[i].status != s
    decreases |ms|
  {
    if i < |ms| - 1 {
      NoneWithStatus(ms[..|ms| - 1], s, i);
    }
  }

  lemma {:induction false} AllHaveLines(ms: seq<Msg>, planned: nat, n: nat)
    requires Increasing(ms, planned) && |ms| == planned && 1 <= n <= planned
    ensures LineOf(ms, n).Some?
    decreases planned
  {
    if ms[|ms| - 1].n == planned {
      LineOfUnique(ms, |ms| - 1);
      if n < planned {
        LineOfFront(ms, n);
        AllHaveLines(ms[..|ms| - 1], planned - 1, n);
      }
    } else {
      NoLineAt(ms, planned);
      ListAgainstCount(planned - 1, ms, AllMessages);
      assert false;
    }
  }

  /** The message has a line that says it was exported with everything asked for. */
  predicate FullyExported(m: Option<Msg>) {
    m.Some? && (m.value.status == Exported || m.value.status == WithoutOriginal)
  }

  ghost predicate AllFullyExported(planned: nat, ms: seq<Msg>) {
    forall n :: 1 <= n <= planned ==> FullyExported(LineOf(ms, n))
  }

  /** A run sealed complete exported every planned message, none of them without a readable copy it
      was asked for; a run proposed complete is partial exactly when one was not, and any other proposal stands. */
  lemma CompleteMeansAll(planned: nat, lines: seq<Line>)
    requires WellFormed(planned, lines)
    ensures var ms := Effective(lines);
      && (FinalStatus(Ledger.Complete, CountsOf(planned, ms)) == Ledger.Complete <==> AllFullyExported(planned, ms))
      && (FinalStatus(Ledger.Complete, CountsOf(planned, ms)) == Ledger.Partial <==> !AllFullyExported(planned, ms))
      && forall p :: p != Ledger.Complete ==> FinalStatus(p, CountsOf(planned, ms)) == p
  {
    var ms := Effective(lines);
    EffectiveIncreasing(planned, lines);
    TakenByStatus(ms);
    ListAgainstCount(planned, ms, AllMessages);
    if AllFullyExported(planned, ms) {
      AllLinesGood(planned, ms);
    }
    if FinalStatus(Ledger.Complete, CountsOf(planned, ms)) == Ledger.Complete {
      NoBadLines(planned, ms);
    }
  }

  lemma NoBadLines(planned: nat, ms: seq<Msg>)
    requires Increasing(ms, planned) && |ms| == planned
    requires CountStatus(ms, FailedMsg) == CountStatus(ms, NotAttempted) == CountStatus(ms, OriginalOnly) == 0
    ensures AllFullyExported(planned, ms)
  {
    forall n | 1 <= n <= planned ensures FullyExported(LineOf(ms, n)) {
      AllHaveLines(ms, planned, n);
      var i :| 0 <= i < |ms| && ms[i] == LineOf(ms, n).value;
      NoneWithStatus(ms, FailedMsg, i);
      NoneWithStatus(ms, NotAttempted, i);
      NoneWithStatus(ms, OriginalOnly, i);
    }
  }

  lemma {:induction false} AllLinesGood(planned: nat, ms: seq<Msg>)
    requires Increasing(ms, planned) && AllFullyExported(planned, ms)
    ensures |ms| == planned && CountStatus(ms, FailedMsg) == 0 && CountStatus(ms, NotAttempted) == 0
      && CountStatus(ms, OriginalOnly) == 0
    decreases planned
  {
    if planned == 0 {
      SomePlanned(ms, planned);
    } else {
      assert FullyExported(LineOf(ms, planned));
      var k :| 0 <= k < |ms| && ms[k] == LineOf(ms, planned).value;
      LastIsLargest(ms, planned, k);
      DropLastLine(planned, ms);
      var front := ms[..|ms| - 1];
      forall n | 1 <= n <= planned - 1 ensures FullyExported(LineOf(front, n)) {
        LineOfFront(ms, n);
        assert FullyExported(LineOf(ms, n));
      }
      AllLinesGood(planned - 1, front);
    }
  }
}
