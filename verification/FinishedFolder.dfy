/** A folder as its run left it, and what "Check this export" then says of it. The presence check of the finish
    drops files from the record, and takes none of them out of the folder. */
module FinishedFolder {
  import opened ExportCheck
  import opened RunRecord
  import opened Sums
  import opened Wrappers
  import Presence

  predicate OwnName(p: string) { p == SUMS_NAME || p == MARKER_NAME || p == README_NAME || p == MANIFEST_NAME }

  // ---- what the presence check keeps

  /** The file is one of an exported message whose originals the folder all backs, and it backs the file too. */
  ghost predicate KeptOf(folder: Presence.Folder, m: Msg, f: FileRec, rehash: bool) {
    && Listed(m.status) && f in m.files
    && Presence.OriginalsBacked(folder, m.files, rehash) && Presence.Backed(folder, f, rehash)
  }

  ghost predicate Kept(folder: Presence.Folder, ms: seq<Msg>, f: FileRec, rehash: bool) {
    exists i :: 0 <= i < |ms| && KeptOf(folder, ms[i], f, rehash)
  }

  lemma SettledKeeps(folder: Presence.Folder, m: Msg, rehash: bool, f: FileRec)
    requires Presence.MessageAmends(folder, m, rehash).Some?
    ensures var e := Presence.Settled(folder, m, rehash);
      Listed(e.status) && f in e.files <==> KeptOf(folder, m, f, rehash)
  {
    Presence.SettledIsBacked(folder, m, rehash);
    hide Presence.Settled, Presence.Backed, Presence.IsDerived;
  }

  /** After the check a record lists exactly the files kept. */
  lemma KeptIsListed(planned: nat, record: seq<Line>, folder: Presence.Folder, rehash: bool, after: seq<Line>, f: FileRec)
    requires WellFormed(planned, record) && Presence.AllAmends(folder, Effective(record), rehash).Some?
    requires after == Presence.WithAmends(record, Presence.AllAmends(folder, Effective(record), rehash).value)
    ensures ListedFile(Effective(after), f) <==> Kept(folder, Effective(record), f, rehash)
  {
    var ms, settled := Effective(record), Effective(after);
    Presence.EffectiveAfter(planned, record, folder, rehash);
    EffectiveIncreasing(planned, record);
    hide Effective, KeptOf, WellFormed;
    forall i | 0 <= i < |ms|
      ensures Listed(settled[i].status) && f in settled[i].files <==> KeptOf(folder, ms[i], f, rehash)
    {
      Presence.AmendOfOne(folder, ms, rehash, planned, i);
      SettledKeeps(folder, ms[i], rehash, f);
    }
  }

  // ---- the folder

  predicate HashHolds(folder: Presence.Folder, f: FileRec) { folder(f.path).hash == Presence.HashOf(f.sha) }

  /** Each listed file answers a check as it answers a hash, and the export's own files are as it wrote them. */
  ghost predicate LeftAsFinished(view: View, readme: string, manifest: string, ms: seq<Msg>, folder: Presence.Folder) {
    && view.sums == Data(Render(SealedLines(readme, manifest, ms)))
    && view.hashOf(README_NAME) == Some(readme) && view.hashOf(MANIFEST_NAME) == Some(manifest)
    && forall f :: ListedFile(ms, f) ==> (FileIntact(view, f) <==> HashHolds(folder, f))
  }

  /** A record whose presence check was answered, the sums built from what it left of it, and the folder a check
      sees afterwards. */
  ghost predicate Finished(planned: nat, record: seq<Line>, folder: Presence.Folder, rehash: bool, after: seq<Line>,
                           readme: string, manifest: string, view: View, sha: string -> string) {
    && WellFormed(planned, record) && Presence.AllAmends(folder, Effective(record), rehash).Some?
    && after == Presence.WithAmends(record, Presence.AllAmends(folder, Effective(record), rehash).value)
    && LeftAsFinished(view, readme, manifest, Effective(after), folder)
    && AllPrintable(SealedLines(readme, manifest, Effective(after)))
    && sha(Render(SealedLines(readme, manifest, Effective(after)))) != ""
  }

  /** Every file kept still holds the bytes recorded for it; a check that hashes sees to it. */
  ghost predicate NoneDamaged(folder: Presence.Folder, ms: seq<Msg>, rehash: bool) {
    forall f :: Kept(folder, ms, f, rehash) ==> HashHolds(folder, f)
  }

  ghost predicate KeptName(folder: Presence.Folder, ms: seq<Msg>, p: string, rehash: bool) {
    exists f :: Kept(folder, ms, f, rehash) && NamedAs(f, p)
  }

  /** A walk meets nothing but the export's own files and files kept. */
  ghost predicate OnlyKept(walked: seq<string>, folder: Presence.Folder, ms: seq<Msg>, rehash: bool) {
    forall p :: p in walked ==> OwnName(p) || KeptName(folder, ms, p, rehash)
  }

  lemma LinesIntact(view: View, readme: string, manifest: string, ms: seq<Msg>)
    requires view.hashOf(README_NAME) == Some(readme) && view.hashOf(MANIFEST_NAME) == Some(manifest)
    ensures AllIntact(view.hashOf, SealedLines(readme, manifest, ms))
      <==> forall f :: ListedFile(ms, f) ==> FileIntact(view, f)
  {
    var lines := SealedLines(readme, manifest, ms);
    hide SealedLines, ListedFile, SumsPath;
    forall f | ListedFile(ms, f) && !FileIntact(view, f) ensures !AllIntact(view.hashOf, lines) {
      var l := SumLine(SumsPath(f.path), f.sha);
      FileIsListed(readme, manifest, ms, l);
      var i :| 0 <= i < |lines| && lines[i] == l;
      assert !Intact(view.hashOf, lines[i]);
    }
    forall i | 0 <= i < |lines| && !Intact(view.hashOf, lines[i])
      ensures exists f :: ListedFile(ms, f) && !FileIntact(view, f)
    {
      assert lines[i] in lines;
      FileIsListed(readme, manifest, ms, lines[i]);
      var f :| ListedFile(ms, f) && lines[i] == SumLine(SumsPath(f.path), f.sha);
      assert !FileIntact(view, f);
    }
  }

  /** A path is in the sums exactly when it is the README's, the manifest's or a listed file's. */
  lemma LineNamed(readme: string, manifest: string, ms: seq<Msg>, p: string)
    ensures var lines := SealedLines(readme, manifest, ms);
      (exists i :: 0 <= i < |lines| && Names(lines[i], p))
      <==> p == README_NAME || p == MANIFEST_NAME || exists f :: ListedFile(ms, f) && NamedAs(f, p)
  {
    var lines := SealedLines(readme, manifest, ms);
    hide SealedLines, ListedFile, SumsPath;
    if i :| 0 <= i < |lines| && Names(lines[i], p) {
      assert lines[i] in lines;
      FileIsListed(readme, manifest, ms, lines[i]);
      if p != README_NAME && p != MANIFEST_NAME {
        var f :| ListedFile(ms, f) && lines[i] == SumLine(SumsPath(f.path), f.sha);
        assert NamedAs(f, p);
      }
    }
    forall l | Names(l, p) && l in lines ensures exists i :: 0 <= i < |lines| && Names(lines[i], p) {
      var i :| 0 <= i < |lines| && lines[i] == l;
    }
    FileIsListed(readme, manifest, ms, SumLine(README_NAME, readme));
    FileIsListed(readme, manifest, ms, SumLine(MANIFEST_NAME, manifest));
    assert Names(SumLine(README_NAME, readme), README_NAME) && Names(SumLine(MANIFEST_NAME, manifest), MANIFEST_NAME);
    if f :| ListedFile(ms, f) && NamedAs(f, p) {
      FileIsListed(readme, manifest, ms, SumLine(SumsPath(f.path), f.sha));
      assert Names(SumLine(SumsPath(f.path), f.sha), p);
    }
  }

  lemma OnlyLines(walked: seq<string>, readme: string, manifest: string, after: seq<Msg>, folder: Presence.Folder,
                  ms: seq<Msg>, rehash: bool)
    requires forall f :: ListedFile(after, f) <==> Kept(folder, ms, f, rehash)
    ensures NothingElse(walked, SealedLines(readme, manifest, after)) <==> OnlyKept(walked, folder, ms, rehash)
  {
    var lines := SealedLines(readme, manifest, after);
    hide SealedLines, ListedFile, Kept, NamedAs, Names;
    forall p | p in walked
      ensures p == SUMS_NAME || p == MARKER_NAME || (exists i :: 0 <= i < |lines| && Names(lines[i], p))
        <==> OwnName(p) || KeptName(folder, ms, p, rehash)
    {
      LineNamed(readme, manifest, after, p);
    }
    hide KeptName, OwnName;
  }

  /** The check of a folder as its run left it, whatever else is in it: green exactly when the sums are no longer
      than it reads, what was kept is undamaged, and nothing is there but the export's own files and files kept.
      A file that was dropped and is still there is never taken for a damaged copy. */
  lemma FinishedIsGreen(planned: nat, record: seq<Line>, folder: Presence.Folder, rehash: bool, after: seq<Line>,
                        readme: string, manifest: string, view: View, sha: string -> string, d: Derived)
    requires Finished(planned, record, folder, rehash, after, readme, manifest, view, sha)
    ensures var ms, sums := Effective(record), Render(SealedLines(readme, manifest, Effective(after)));
      var v := VerdictOf(view, sha(sums), sha, d);
      && (v.ok <==> |sums| <= SUMS_CAP && NoneDamaged(folder, ms, rehash) && OnlyKept(view.walked, folder, ms, rehash))
      && (v.derivedOnly ==> !NoneDamaged(folder, ms, rehash) && OnlyKept(view.walked, folder, ms, rehash))
      && (rehash ==> NoneDamaged(folder, ms, rehash))
  {
    var ms, settled := Effective(record), Effective(after);
    var lines := SealedLines(readme, manifest, settled);
    forall f ensures ListedFile(settled, f) <==> Kept(folder, ms, f, rehash) {
      KeptIsListed(planned, record, folder, rehash, after, f);
    }
    LinesIntact(view, readme, manifest, settled);
    OnlyLines(view.walked, readme, manifest, settled, folder, ms, rehash);
    FileIsListed(readme, manifest, settled, SumLine(README_NAME, readme));
    GreenMeansIntact(view, sha(Render(lines)), sha, d, lines);
    DerivedOnlyMeans(view, sha(Render(lines)), sha, d, lines);
    hide VerdictOf, Render, SealedLines, Effective, ListedFile, OnlyKept, NothingElse, AllIntact, BrokenAllIn;
    hide HashHolds, FileIntact, WellFormed, AllPrintable;
    HashesHold(folder, ms);
  }

  lemma HashesHold(folder: Presence.Folder, ms: seq<Msg>)
    ensures NoneDamaged(folder, ms, true)
  {
  }

  // ---- the folder by its record

  /** A line of the record names the file, whatever came of its message. */
  ghost predicate InRecord(record: seq<Line>, f: FileRec) { exists m :: MsgLine(m) in record && f in m.files }

  /** A walk meets it: it is there and no directory. */
  predicate There(folder: Presence.Folder, f: FileRec) {
    folder(f.path).look.Regular? || folder(f.path).look.Irregular?
  }

  /** The volume answers about every recorded file, and besides the export's own files the folder has those of
      them that are still there. */
  ghost predicate HoldsRecorded(walked: seq<string>, record: seq<Line>, folder: Presence.Folder) {
    && (forall f :: InRecord(record, f) ==> !folder(f.path).look.NoAnswer?)
    && forall p :: !OwnName(p) ==> (p in walked <==> exists f :: InRecord(record, f) && There(folder, f) && NamedAs(f, p))
  }

  /** A path in the sums tells a recorded file, and none is the export's own. */
  ghost predicate PathsTell(record: seq<Line>) {
    && (forall f, g :: InRecord(record, f) && InRecord(record, g) && SumsPath(f.path) == SumsPath(g.path) ==> f == g)
    && forall f :: InRecord(record, f) ==> !OwnName(SumsPath(f.path))
  }

  /** Every recorded file that is still there is one of an exported message, backed, and so are the message's
      originals. */
  ghost predicate NoneDropped(record: seq<Line>, folder: Presence.Folder, rehash: bool) {
    forall f :: InRecord(record, f) && There(folder, f) ==> Kept(folder, Effective(record), f, rehash)
  }

  lemma {:induction false} FirstInRecord(lines: seq<Line>, i: nat)
    requires i < |FirstLines(lines)|
    ensures MsgLine(FirstLines(lines)[i]) in lines
  {
    if i < |FirstLines(lines[..|lines| - 1])| {
      FirstInRecord(lines[..|lines| - 1], i);
    }
  }

  lemma {:induction false} AmendInRecord(lines: seq<Line>, n: nat)
    requires n in Amendments(lines)
    ensures MsgLine(Amendments(lines)[n]) in lines
  {
    var last := lines[|lines| - 1];
    if !(last.MsgLine? && last.m.amend && last.m.n == n) {
      AmendInRecord(lines[..|lines| - 1], n);
    }
  }

  lemma KeptInRecord(record: seq<Line>, folder: Presence.Folder, f: FileRec, rehash: bool)
    requires Kept(folder, Effective(record), f, rehash)
    ensures InRecord(record, f) && There(folder, f)
  {
    var ms := Effective(record);
    var i :| 0 <= i < |ms| && KeptOf(folder, ms[i], f, rehash);
    FirstInRecord(record, i);
    if ms[i].n in Amendments(record) {
      AmendInRecord(record, ms[i].n);
    }
    assert MsgLine(ms[i]) in record;
  }

  lemma OnlyKeptIsNoneDropped(walked: seq<string>, record: seq<Line>, folder: Presence.Folder, rehash: bool)
    requires HoldsRecorded(walked, record, folder) && PathsTell(record)
    ensures OnlyKept(walked, folder, Effective(record), rehash) <==> NoneDropped(record, folder, rehash)
  {
    var ms := Effective(record);
    forall f | Kept(folder, ms, f, rehash) ensures InRecord(record, f) && There(folder, f) {
      KeptInRecord(record, folder, f, rehash);
    }
    hide Effective, Kept, InRecord, There, SumsPath, OwnName;
    if OnlyKept(walked, folder, ms, rehash) {
      forall f | InRecord(record, f) && There(folder, f) ensures Kept(folder, ms, f, rehash) {
        var p := SumsPath(f.path);
        assert NamedAs(f, p);
        assert p in walked;
        var g :| Kept(folder, ms, g, rehash) && NamedAs(g, p);
      }
    }
  }

  /** So where the folder has the recorded files that are still there and nothing else of its own, a check is green
      exactly when its sums are read, nothing kept is damaged and nothing that is there was dropped. */
  lemma GreenUnlessDropped(planned: nat, record: seq<Line>, folder: Presence.Folder, rehash: bool, after: seq<Line>,
                           readme: string, manifest: string, view: View, sha: string -> string, d: Derived)
    requires Finished(planned, record, folder, rehash, after, readme, manifest, view, sha)
    requires HoldsRecorded(view.walked, record, folder) && PathsTell(record)
    ensures var sums := Render(SealedLines(readme, manifest, Effective(after)));
      var v := VerdictOf(view, sha(sums), sha, d);
      && (v.ok <==> |sums| <= SUMS_CAP
                    && NoneDamaged(folder, Effective(record), rehash) && NoneDropped(record, folder, rehash))
      && (v.derivedOnly ==> NoneDropped(record, folder, rehash))
  {
    hide *;
    FinishedIsGreen(planned, record, folder, rehash, after, readme, manifest, view, sha, d);
    OnlyKeptIsNoneDropped(view.walked, record, folder, rehash);
  }
}
