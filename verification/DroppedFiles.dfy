/** What the finish drops from the record stays in the folder: an export of one message whose readable copy was
    damaged, or whose original is gone while its readable copy is there. */
module DroppedFiles {
  import opened ExportCheck
  import opened FinishedFolder
  import opened RunRecord
  import opened Sums
  import opened Wrappers
  import Presence

  const EML := "m/a.eml"
  const HTML := "m/a.html"

  function Mail(hash: string): FileRec { FileRec(EML, Original, hash, 1) }

  function Copy(hash: string): FileRec { FileRec(HTML, DerivedHTML, hash, 1) }

  function Message(hash: string): Msg { Msg(1, Exported, false, "", [Mail(hash), Copy(hash)], [], false) }

  function Record(hash: string): seq<Line> { [PlanLine(1, ""), MsgLine(Message(hash))] }

  /** The original is gone, or the readable copy has another hash. */
  function Folder(hash: string, other: string, gone: bool): Presence.Folder {
    (path: string) =>
      if gone && path == EML then Presence.Answer(Presence.LookGone, Presence.HashGone)
      else Presence.Answer(Presence.Regular(1), Presence.HashOf(if !gone && path == HTML then other else hash))
  }

  function Walked(gone: bool): seq<string> {
    [SUMS_NAME, MARKER_NAME, README_NAME, MANIFEST_NAME, HTML] + if gone then [] else [EML]
  }

  function Seen(folder: Presence.Folder, sums: string, gone: bool): View {
    View(Data(sums), (p: string) => if folder(p).hash.HashOf? then Some(folder(p).hash.sha) else None, Walked(gone))
  }

  lemma RecordIs(hash: string)
    ensures WellFormed(1, Record(hash)) && Effective(Record(hash)) == [Message(hash)]
    ensures forall f :: InRecord(Record(hash), f) <==> f == Mail(hash) || f == Copy(hash)
  {
    var plan, lines := [PlanLine(1, "")], Record(hash);
    assert plan[..0] == [] && lines[..1] == plan;
    assert FirstLines(plan) == [] && PlanNumbers(plan) == [1] && Amendments(plan) == map[];
    assert FirstLines(lines) == [Message(hash)] && PlanNumbers(lines) == [1];
    assert MsgLine(Message(hash)) in lines;
    assert Mail(hash) in Message(hash).files && Copy(hash) in Message(hash).files;
  }

  lemma PathsAre()
    ensures SumsPath(EML) == EML && SumsPath(HTML) == HTML
  {
    SlashedAt(EML);
    SlashedAt(HTML);
    hide SumsPath;
  }

  lemma Answered(hash: string, other: string, gone: bool)
    requires other != hash
    ensures Presence.AllAmends(Folder(hash, other, gone), [Message(hash)], true).Some?
  {
    var folder, m := Folder(hash, other, gone), Message(hash);
    var front := m.files[..1];
    assert front == [Mail(hash)] && front[..0] == [];
    assert !Presence.DerivedSilent(folder, front, true);
    assert !Presence.DerivedSilent(folder, m.files, true);
    var bad := Presence.FirstBad(folder, m.files, true, 0);
    assert Presence.MessageAmends(folder, m, true).Some?;
    hide Presence.MessageAmends;
    var ms := [m];
    assert ms[..0] == [];
    assert Presence.AllAmends(folder, [], true) == Some([]);
  }

  lemma WalkMeets(hash: string, other: string, gone: bool)
    ensures HoldsRecorded(Walked(gone), Record(hash), Folder(hash, other, gone)) && PathsTell(Record(hash))
  {
    RecordIs(hash);
    PathsAre();
    hide InRecord, SumsPath;
    var folder := Folder(hash, other, gone);
    forall p | !OwnName(p)
      ensures p in Walked(gone) <==> exists f :: InRecord(Record(hash), f) && There(folder, f) && NamedAs(f, p)
    {
      assert NamedAs(Mail(hash), EML) && NamedAs(Copy(hash), HTML);
      assert There(folder, Mail(hash)) <==> !gone;
    }
  }

  /** The record after the presence check of Finish as partial. */
  ghost predicate IsAfter(hash: string, folder: Presence.Folder, after: seq<Line>) {
    var amends := Presence.AllAmends(folder, Effective(Record(hash)), true);
    amends.Some? && after == Presence.WithAmends(Record(hash), amends.value)
  }

  /** It lists the original only, if that is there. */
  lemma Lists(hash: string, other: string, gone: bool, after: seq<Line>, f: FileRec)
    requires other != hash && IsAfter(hash, Folder(hash, other, gone), after) && ListedFile(Effective(after), f)
    ensures f == Mail(hash) && !gone
  {
    var folder := Folder(hash, other, gone);
    RecordIs(hash);
    KeptIsListed(1, Record(hash), folder, true, after, f);
    KeptMail(hash, other, gone, f);
  }

  lemma KeptMail(hash: string, other: string, gone: bool, f: FileRec)
    requires other != hash && Kept(Folder(hash, other, gone), [Message(hash)], f, true)
    ensures f == Mail(hash) && !gone
  {
    assert Mail(hash) in Message(hash).files;
  }

  lemma OneSettled(record: seq<Line>, folder: Presence.Folder, m: Msg, after: seq<Line>)
    requires WellFormed(1, record) && Effective(record) == [m] && Presence.AllAmends(folder, [m], true).Some?
    requires after == Presence.WithAmends(record, Presence.AllAmends(folder, [m], true).value)
    ensures Presence.MessageAmends(folder, m, true).Some? && Effective(after) == [Presence.Settled(folder, m, true)]
  {
    hide *;
    EffectiveIncreasing(1, record);
    Presence.EffectiveAfter(1, record, folder, true);
    Presence.AmendOfOne(folder, [m], true, 1, 0);
  }

  lemma FewLines(hash: string, other: string, gone: bool, after: seq<Line>)
    requires IsAfter(hash, Folder(hash, other, gone), after)
    ensures |ListedLines(Effective(after))| <= 2
  {
    var folder, m := Folder(hash, other, gone), Message(hash);
    assert |m.files| == 2 && Listed(m.status);
    RecordIs(hash);
    OneSettled(Record(hash), folder, m, after);
    hide *;
    Presence.SettledIsBacked(folder, m, true);
    OneListed(Presence.Settled(folder, m, true));
  }

  lemma OneListed(m: Msg)
    ensures |ListedLines([m])| == if Listed(m.status) then |m.files| else 0
  {
    hide SumsPath;
    assert [m][..0] == [];
  }

  lemma {:induction false} RenderAtMost(lines: seq<SumLine>)
    requires AllPrintable(lines) && forall i :: 0 <= i < |lines| ==> |lines[i].path| <= 20
    ensures |Render(lines)| <= 87 * |lines|
  {
    if lines != [] {
      RenderAtMost(lines[..|lines| - 1]);
      assert Printable(lines[|lines| - 1]);
    }
  }

  lemma LineIs(hash: string, other: string, gone: bool, after: seq<Line>, l: SumLine)
    requires IsHash(hash) && other != hash && IsAfter(hash, Folder(hash, other, gone), after)
    requires l in SealedLines(hash, hash, Effective(after))
    ensures Printable(l) && |l.path| <= 20
  {
    var ms := Effective(after);
    FileIsListed(hash, hash, ms, l);
    PathsAre();
    hide SealedLines, IsAfter, ListedFile, Effective, SumsPath;
    if l != SumLine(README_NAME, hash) && l != SumLine(MANIFEST_NAME, hash) {
      var f :| ListedFile(ms, f) && l == SumLine(SumsPath(f.path), f.sha);
      Lists(hash, other, gone, after, f);
    }
  }

  lemma LinesAre(hash: string, other: string, gone: bool, after: seq<Line>)
    requires IsHash(hash) && other != hash && IsAfter(hash, Folder(hash, other, gone), after)
    ensures var lines := SealedLines(hash, hash, Effective(after));
      AllPrintable(lines) && |Render(lines)| <= SUMS_CAP
  {
    var ms := Effective(after);
    var lines := SealedLines(hash, hash, ms);
    FewLines(hash, other, gone, after);
    SealedCount(hash, hash, ms);
    hide SealedLines, ListedLines, IsAfter, Effective, Render, Printable, IsHash, SumsPath;
    forall i | 0 <= i < |lines| ensures Printable(lines[i]) && |lines[i].path| <= 20 {
      LineIs(hash, other, gone, after, lines[i]);
    }
    RenderAtMost(lines);
  }

  lemma IsLeft(hash: string, other: string, gone: bool, after: seq<Line>)
    requires other != hash && IsAfter(hash, Folder(hash, other, gone), after)
    ensures var sums := Render(SealedLines(hash, hash, Effective(after)));
      LeftAsFinished(Seen(Folder(hash, other, gone), sums, gone), hash, hash, Effective(after), Folder(hash, other, gone))
  {
    PathsAre();
    hide ListedFile, Effective, Render, SealedLines, IsAfter, SumsPath;
    forall f | ListedFile(Effective(after), f) ensures f == Mail(hash) && !gone {
      Lists(hash, other, gone, after, f);
    }
  }

  /** The readable copy is in the folder, and the finish dropped it. */
  lemma CopyDropped(hash: string, other: string, gone: bool)
    requires other != hash
    ensures !NoneDropped(Record(hash), Folder(hash, other, gone), true)
  {
    RecordIs(hash);
    hide InRecord, Kept;
    if Kept(Folder(hash, other, gone), Effective(Record(hash)), Copy(hash), true) {
      KeptMail(hash, other, gone, Copy(hash));
    }
    assert There(Folder(hash, other, gone), Copy(hash));
  }

  /** Finish as partial of such an export, its folder left as it was: the check is red, short as the sums are, and
      does not say that only derived copies are concerned. */
  lemma DroppedShows(hash: string, other: string, gone: bool, sha: string -> string, d: Derived)
    returns (after: seq<Line>)
    requires IsHash(hash) && other != hash && forall s :: sha(s) != ""
    ensures var folder, sums := Folder(hash, other, gone), Render(SealedLines(hash, hash, Effective(after)));
      var view := Seen(folder, sums, gone);
      && Finished(1, Record(hash), folder, true, after, hash, hash, view, sha)
      && HoldsRecorded(view.walked, Record(hash), folder) && PathsTell(Record(hash)) && |sums| <= SUMS_CAP
      && !VerdictOf(view, sha(sums), sha, d).ok && !VerdictOf(view, sha(sums), sha, d).derivedOnly
  {
    RecordIs(hash);
    Answered(hash, other, gone);
    var folder := Folder(hash, other, gone);
    after := Presence.WithAmends(Record(hash), Presence.AllAmends(folder, Effective(Record(hash)), true).value);
    var sums := Render(SealedLines(hash, hash, Effective(after)));
    var view := Seen(folder, sums, gone);
    hide Effective, Render, SealedLines, VerdictOf, NoneDropped, HoldsRecorded, PathsTell, LeftAsFinished, Walked;
    hide WellFormed;
    LinesAre(hash, other, gone, after);
    IsLeft(hash, other, gone, after);
    WalkMeets(hash, other, gone);
    CopyDropped(hash, other, gone);
    GreenUnlessDropped(1, Record(hash), folder, true, after, hash, hash, view, sha, d);
  }
}
