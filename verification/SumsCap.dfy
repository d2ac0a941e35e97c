/** An export whose sums are longer than a check of its folder reads: 200,000 messages or more, each an
    original with a readable copy and three attachments beside it, 1,000 files to a directory. */
module SumsCap {
  import opened ExportCheck
  import opened FinishedFolder
  import opened Namer
  import opened RunRecord
  import opened Sums
  import opened Text
  import opened Wrappers
  import Presence

  const ROLES: seq<Role> := [Original, DerivedHTML, DerivedAttachment, DerivedAttachment, DerivedAttachment]

  /** The files of a message in the part of its month where 200 messages of five files each go. */
  function BigFile(hash: string, k: nat, j: nat): FileRec
    requires j < 5
  {
    var part := PartName("2026-03", k / (FILES_PER_DIR / 5) + 1);
    FileRec("messages/" + part + "/" + Decimal(k) + "-" + Decimal(j), ROLES[j], hash, 1)
  }

  function BigMsg(hash: string, k: nat): Msg {
    var files := [BigFile(hash, k, 0), BigFile(hash, k, 1), BigFile(hash, k, 2), BigFile(hash, k, 3), BigFile(hash, k, 4)];
    Msg(k, Exported, false, "", files, [], false)
  }

  function BigMsgs(hash: string, n: nat): (r: seq<Msg>)
    ensures |r| == n && forall i :: 0 <= i < n ==> r[i] == BigMsg(hash, i + 1)
  {
    if n == 0 then [] else BigMsgs(hash, n - 1) + [BigMsg(hash, n)]
  }

  function Plan(n: nat): seq<Line> { if n == 0 then [] else Plan(n - 1) + [PlanLine(n, "")] }

  /** The record of n planned messages when k of them are done. */
  function BigRecord(hash: string, n: nat, k: nat): seq<Line> {
    if k == 0 then Plan(n) else BigRecord(hash, n, k - 1) + [MsgLine(BigMsg(hash, k))]
  }

  lemma {:induction false} PlanReads(n: nat)
    ensures FirstLines(Plan(n)) == [] && Amendments(Plan(n)) == map[]
    ensures |PlanNumbers(Plan(n))| == n && forall i :: 0 <= i < n ==> PlanNumbers(Plan(n))[i] == i + 1
  {
    if n > 0 {
      PlanReads(n - 1);
      assert Plan(n)[..|Plan(n)| - 1] == Plan(n - 1);
    }
  }

  lemma {:induction false} RecordReads(hash: string, n: nat, k: nat)
    ensures FirstLines(BigRecord(hash, n, k)) == BigMsgs(hash, k) && Amendments(BigRecord(hash, n, k)) == map[]
    ensures PlanNumbers(BigRecord(hash, n, k)) == PlanNumbers(Plan(n))
  {
    if k > 0 {
      RecordReads(hash, n, k - 1);
      var lines := BigRecord(hash, n, k);
      assert lines[..|lines| - 1] == BigRecord(hash, n, k - 1);
    } else {
      PlanReads(n);
    }
  }

  lemma RecordIs(hash: string, n: nat)
    ensures WellFormed(n, BigRecord(hash, n, n)) && Effective(BigRecord(hash, n, n)) == BigMsgs(hash, n)
  {
    RecordReads(hash, n, n);
    PlanReads(n);
  }

  lemma {:induction false} ManyLines(hash: string, n: nat)
    ensures |ListedLines(BigMsgs(hash, n))| == 5 * n
  {
    if n > 0 {
      ManyLines(hash, n - 1);
      assert BigMsgs(hash, n)[..n - 1] == BigMsgs(hash, n - 1);
    }
  }

  lemma PathOfBig(hash: string, k: nat, j: nat)
    requires j < 5
    ensures var f := BigFile(hash, k, j); |f.path| > 10 && '\n' !in f.path
  {
    DecimalPlain(k);
    DecimalPlain(j);
    DecimalPlain(k / 200 + 1);
    hide Decimal;
    assert '\n' !in "messages/" && '\n' !in "2026-03" && '\n' !in "~" && '\n' !in "/" && '\n' !in "-";
  }

  lemma FileOfMessage(hash: string, k: nat, f: FileRec)
    requires f in BigMsg(hash, k).files
    ensures f.sha == hash && |f.path| > 10 && '\n' !in f.path
  {
    var j :| 0 <= j < 5 && f == BigMsg(hash, k).files[j];
    PathOfBig(hash, k, j);
    hide Decimal, PartName;
  }

  lemma FileOfBig(hash: string, n: nat, f: FileRec)
    requires ListedFile(BigMsgs(hash, n), f)
    ensures f.sha == hash && |f.path| > 10 && '\n' !in f.path
  {
    var i :| 0 <= i < n && f in BigMsgs(hash, n)[i].files;
    FileOfMessage(hash, i + 1, f);
  }

  lemma DecimalPlain(n: nat)
    ensures '\n' !in Decimal(n)
  {
    forall i | 0 <= i < |Decimal(n)| ensures Decimal(n)[i] != '\n' {
      assert IsDigit(Decimal(n)[i]);
    }
  }

  lemma LinesOfBig(hash: string, n: nat)
    requires IsHash(hash)
    ensures var lines := SealedLines(hash, hash, BigMsgs(hash, n));
      |lines| == 2 + 5 * n && AllPrintable(lines)
      && forall i :: 0 <= i < |lines| ==> |lines[i].path| >= 10 && lines[i].hash == hash
  {
    var lines := SealedLines(hash, hash, BigMsgs(hash, n));
    ManyLines(hash, n);
    SealedCount(hash, hash, BigMsgs(hash, n));
    hide SealedLines, ListedLines;
    forall i | 0 <= i < |lines| ensures Printable(lines[i]) && |lines[i].path| >= 10 && lines[i].hash == hash {
      LineOfBig(hash, n, lines[i]);
    }
  }

  lemma LineOfBig(hash: string, n: nat, l: SumLine)
    requires IsHash(hash) && l in SealedLines(hash, hash, BigMsgs(hash, n))
    ensures Printable(l) && |l.path| >= 10 && l.hash == hash
  {
    FileIsListed(hash, hash, BigMsgs(hash, n), l);
    hide SealedLines, ListedFile, BigMsgs;
    if l != SumLine(README_NAME, hash) && l != SumLine(MANIFEST_NAME, hash) {
      var f :| ListedFile(BigMsgs(hash, n), f) && l == SumLine(SumsPath(f.path), f.sha);
      FileOfBig(hash, n, f);
      SlashedPlain(f.path);
    }
  }

  lemma SlashedPlain(path: string)
    requires '\n' !in path
    ensures '\n' !in SumsPath(path) && |SumsPath(path)| == |path|
  {
    SlashedAt(path);
    hide SumsPath;
  }

  lemma {:induction false} RenderAtLeast(lines: seq<SumLine>)
    requires AllPrintable(lines) && forall i :: 0 <= i < |lines| ==> |lines[i].path| >= 10
    ensures |Render(lines)| >= 77 * |lines|
  {
    if lines != [] {
      RenderAtLeast(lines[..|lines| - 1]);
      assert Printable(lines[|lines| - 1]);
    }
  }

  function BigFolder(hash: string): Presence.Folder {
    (path: string) => Presence.Answer(Presence.Regular(1), Presence.HashOf(hash))
  }

  function PathsOf(lines: seq<SumLine>): (r: seq<string>)
    ensures |r| == |lines| && forall i :: 0 <= i < |r| ==> r[i] == lines[i].path
  {
    if lines == [] then [] else PathsOf(lines[..|lines| - 1]) + [lines[|lines| - 1].path]
  }

  /** The folder as a check sees it: the sums, and every file they list. */
  function BigView(hash: string, lines: seq<SumLine>): View {
    View(Data(Render(lines)), (path: string) => Some(hash), [SUMS_NAME] + PathsOf(lines))
  }

  lemma BigIsBacked(hash: string, n: nat)
    ensures Presence.AllAmends(BigFolder(hash), BigMsgs(hash, n), true) == Some([])
  {
    var ms := BigMsgs(hash, n);
    forall i | 0 <= i < |ms| ensures Presence.MessageAmends(BigFolder(hash), ms[i], true) == Some([]) {
      Presence.BackedIsSettled(BigFolder(hash), ms[i], true);
    }
    Presence.AllSettled(BigFolder(hash), ms, true);
  }

  lemma BigIsLeft(hash: string, ms: seq<Msg>)
    requires forall f :: ListedFile(ms, f) ==> f.sha == hash
    ensures LeftAsFinished(BigView(hash, SealedLines(hash, hash, ms)), hash, hash, ms, BigFolder(hash))
  {
    hide SealedLines, ListedFile, SumsPath, Render;
  }

  lemma BigIsFinished(hash: string, n: nat, sha: string -> string)
    requires IsHash(hash) && forall s :: sha(s) != ""
    ensures var record, ms := BigRecord(hash, n, n), BigMsgs(hash, n);
      Finished(n, record, BigFolder(hash), true, record, hash, hash, BigView(hash, SealedLines(hash, hash, ms)), sha)
  {
    var record, ms := BigRecord(hash, n, n), BigMsgs(hash, n);
    assert Presence.WithAmends(record, []) == record;
    RecordIs(hash, n);
    BigIsBacked(hash, n);
    forall f | ListedFile(ms, f) ensures f.sha == hash {
      FileOfBig(hash, n, f);
    }
    LinesOfBig(hash, n);
    BigIsLeft(hash, ms);
    hide WellFormed, Effective, BigRecord, BigMsgs, LeftAsFinished, AllPrintable, Render, SealedLines, BigView, ListedFile;
  }

  lemma {:induction false} MessagesOfBig(hash: string, n: nat, k: nat, m: Msg)
    requires MsgLine(m) in BigRecord(hash, n, k)
    ensures exists i :: 1 <= i <= k && m == BigMsg(hash, i)
  {
    hide BigMsg;
    if k == 0 {
      NoMessages(n, m);
    } else if m != BigMsg(hash, k) {
      MessagesOfBig(hash, n, k - 1, m);
    }
  }

  lemma {:induction false} NoMessages(n: nat, m: Msg)
    ensures MsgLine(m) !in Plan(n)
  {
    if n > 0 {
      NoMessages(n - 1, m);
    }
  }

  lemma BigIsListed(hash: string, n: nat, f: FileRec)
    requires InRecord(BigRecord(hash, n, n), f)
    ensures ListedFile(BigMsgs(hash, n), f)
  {
    var m :| MsgLine(m) in BigRecord(hash, n, n) && f in m.files;
    MessagesOfBig(hash, n, n, m);
    var i :| 1 <= i <= n && m == BigMsg(hash, i);
    assert BigMsgs(hash, n)[i - 1] == m;
  }

  lemma BigWalk(hash: string, n: nat, p: string)
    ensures var lines := SealedLines(hash, hash, BigMsgs(hash, n));
      !OwnName(p) ==> (p in [SUMS_NAME] + PathsOf(lines) <==> exists f :: ListedFile(BigMsgs(hash, n), f) && NamedAs(f, p))
  {
    var lines := SealedLines(hash, hash, BigMsgs(hash, n));
    LineNamed(hash, hash, BigMsgs(hash, n), p);
    hide SealedLines, ListedFile, BigMsgs, NamedAs;
    assert p in PathsOf(lines) <==> exists i :: 0 <= i < |lines| && Names(lines[i], p) by {
      forall i | 0 <= i < |lines| && Names(lines[i], p) ensures p in PathsOf(lines) {
        assert PathsOf(lines)[i] == p;
      }
      if p in PathsOf(lines) {
        var i :| 0 <= i < |lines| && PathsOf(lines)[i] == p;
        assert Names(lines[i], p);
      }
    }
  }

  /** The folder holds the recorded files, all of them kept, and nothing else but the export's own. */
  lemma BigHolds(hash: string, n: nat)
    requires WellFormed(n, BigRecord(hash, n, n)) && Effective(BigRecord(hash, n, n)) == BigMsgs(hash, n)
    requires Presence.AllAmends(BigFolder(hash), BigMsgs(hash, n), true) == Some([])
    ensures var walked := [SUMS_NAME] + PathsOf(SealedLines(hash, hash, BigMsgs(hash, n)));
      && HoldsRecorded(walked, BigRecord(hash, n, n), BigFolder(hash))
      && OnlyKept(walked, BigFolder(hash), BigMsgs(hash, n), true)
  {
    var record, ms, folder := BigRecord(hash, n, n), BigMsgs(hash, n), BigFolder(hash);
    var walked := [SUMS_NAME] + PathsOf(SealedLines(hash, hash, ms));
    assert Presence.WithAmends(record, []) == record;
    hide *;
    forall f ensures InRecord(record, f) <==> ListedFile(ms, f)
      ensures ListedFile(ms, f) <==> Kept(folder, ms, f, true)
    {
      KeptIsListed(n, record, folder, true, record, f);
      if ListedFile(ms, f) {
        KeptInRecord(record, folder, f, true);
      }
      if InRecord(record, f) {
        BigIsListed(hash, n, f);
      }
    }
    forall p
      ensures !OwnName(p) ==> (p in walked <==> exists f :: ListedFile(ms, f) && NamedAs(f, p))
    {
      BigWalk(hash, n, p);
    }
    HoldsBy(walked, record, ms, hash);
  }

  lemma HoldsBy(walked: seq<string>, record: seq<Line>, ms: seq<Msg>, hash: string)
    requires forall f :: InRecord(record, f) <==> ListedFile(ms, f)
    requires forall f :: ListedFile(ms, f) <==> Kept(BigFolder(hash), ms, f, true)
    requires forall p :: !OwnName(p) ==> (p in walked <==> exists f :: ListedFile(ms, f) && NamedAs(f, p))
    ensures HoldsRecorded(walked, record, BigFolder(hash)) && OnlyKept(walked, BigFolder(hash), ms, true)
  {
    hide ListedFile, Kept, InRecord, NamedAs, OwnName;
    assert forall f :: There(BigFolder(hash), f);
  }

  /** Such an export is finished and its folder left as it was, everything recorded still there and kept: the check
      that completes a seal passes, and "Check this export" says that the sums cannot be read. */
  lemma CapShows(hash: string, n: nat, sha: string -> string)
    requires IsHash(hash) && n >= 200_000 && forall s :: sha(s) != ""
    ensures var record, ms, folder := BigRecord(hash, n, n), BigMsgs(hash, n), BigFolder(hash);
      var lines := SealedLines(hash, hash, ms);
      var view := BigView(hash, lines);
      && Effective(record) == ms && Finished(n, record, folder, true, record, hash, hash, view, sha)
      && HoldsRecorded(view.walked, record, folder) && OnlyKept(view.walked, folder, ms, true)
      && PassesCheckSums(view, sha(Render(lines)), sha)
      && VerdictOf(view, sha(Render(lines)), sha, DerivedOf(ms)) == Unchecked(SumsUnreadable)
  {
    hide *;
    var ms := BigMsgs(hash, n);
    var lines := SealedLines(hash, hash, ms);
    RecordIs(hash, n);
    BigIsBacked(hash, n);
    BigIsFinished(hash, n, sha);
    BigWalked(hash, lines);
    BigHolds(hash, n);
    LinesOfBig(hash, n);
    RenderAtLeast(lines);
    CapVerdict(hash, lines, sha, DerivedOf(ms));
  }

  lemma BigWalked(hash: string, lines: seq<SumLine>)
    ensures BigView(hash, lines).walked == [SUMS_NAME] + PathsOf(lines)
  {
  }

  lemma CapVerdict(hash: string, lines: seq<SumLine>, sha: string -> string, d: Derived)
    requires AllPrintable(lines) && |lines| >= 1_000_002 && |Render(lines)| >= 77 * |lines|
    requires forall i :: 0 <= i < |lines| ==> lines[i].hash == hash
    requires forall s :: sha(s) != ""
    ensures var view := BigView(hash, lines);
      && PassesCheckSums(view, sha(Render(lines)), sha)
      && VerdictOf(view, sha(Render(lines)), sha, d) == Unchecked(SumsUnreadable)
  {
    var view := BigView(hash, lines);
    assert |Render(lines)| > SUMS_CAP;
    assert AllIntact(view.hashOf, lines);
    assert VerdictOf(view, sha(Render(lines)), sha, d) == Unchecked(SumsUnreadable);
    hide Render, VerdictOf, PassesCheckSums;
    ChecksAgree(view, sha(Render(lines)), sha, d, lines);
  }
}
