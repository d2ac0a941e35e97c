/** "Check this export": the folder read against its SHA256SUMS.txt, and what each verdict means. */
module ExportCheck {
  import opened Wrappers
  import opened RunRecord
  import opened Sorting
  import opened Sums
  import opened Text
  import Presence

  /** The most of SHA256SUMS.txt a check of a folder reads, in bytes. */
  const SUMS_CAP: nat := 0x400_0000

  datatype SumsFile = NoSums | Unreadable | Data(bytes: string)

  /** readLimited: a file past the bound is not read at all. */
  function ReadLimited(s: SumsFile): SumsFile {
    if s.Data? && |s.bytes| > SUMS_CAP then Unreadable else s
  }

  /** What the check sees: the sums file, the hash of the regular file a path opens, None when it opens
      none, and the files a walk of the folder meets. */
  datatype View = View(sums: SumsFile, hashOf: string -> Option<string>, walked: seq<string>)

  datatype Kind = PlainFile | ReadableCopy | Attachment

  datatype Problem =
    | SumsMissing | SumsUnreadable | NotRecorded | NotSealed | MalformedLine
    | FileProblem(path: string, missing: bool, kind: Kind)
    | NotListed(path: string)

  datatype Verdict = Verdict(
    ok: bool, derivedOnly: bool, readableOnly: bool, fingerprintOK: bool, files: nat,
    changed: seq<string>, missing: seq<string>, unlisted: seq<string>, problems: seq<Problem>)

  // ---- the listed files

  predicate Intact(hashOf: string -> Option<string>, l: SumLine) { hashOf(l.path) == Some(l.hash) }

  function Changed(ps: seq<Parsed>, hashOf: string -> Option<string>): seq<string> {
    if ps == [] then []
    else
      var front, last := Changed(ps[..|ps| - 1], hashOf), ps[|ps| - 1];
      if last.Good? && hashOf(last.line.path).Some? && !Intact(hashOf, last.line) then front + [last.line.path] else front
  }

  function Missing(ps: seq<Parsed>, hashOf: string -> Option<string>): seq<string> {
    if ps == [] then []
    else
      var front, last := Missing(ps[..|ps| - 1], hashOf), ps[|ps| - 1];
      if last.Good? && hashOf(last.line.path).None? then front + [last.line.path] else front
  }

  function Malformeds(ps: seq<Parsed>): seq<Problem> {
    if ps == [] then []
    else Malformeds(ps[..|ps| - 1]) + (if ps[|ps| - 1].Malformed? then [MalformedLine] else [])
  }

  function ListedPaths(ps: seq<Parsed>): set<string> {
    if ps == [] then {}
    else ListedPaths(ps[..|ps| - 1]) + (if ps[|ps| - 1].Good? then {ps[|ps| - 1].line.path} else {})
  }

  function GoodCount(ps: seq<Parsed>): nat {
    if ps == [] then 0 else GoodCount(ps[..|ps| - 1]) + (if ps[|ps| - 1].Good? then 1 else 0)
  }

  method CheckLines(ps: seq<Parsed>, hashOf: string -> Option<string>)
    returns (listed: set<string>, files: nat, changed: seq<string>, missing: seq<string>, bad: seq<Problem>)
    ensures listed == ListedPaths(ps) && files == GoodCount(ps)
    ensures changed == Changed(ps, hashOf) && missing == Missing(ps, hashOf) && bad == Malformeds(ps)
  {
    listed, files, changed, missing, bad := {}, 0, [], [], [];
    for i := 0 to |ps|
      invariant listed == ListedPaths(ps[..i]) && files == GoodCount(ps[..i])
      invariant changed == Changed(ps[..i], hashOf) && missing == Missing(ps[..i], hashOf)
      invariant bad == Malformeds(ps[..i])
    {
      assert ps[..i + 1][..i] == ps[..i];
      match ps[i] {
        case Blank =>
        case Malformed => bad := bad + [MalformedLine];
        case Good(l) =>
          listed, files := listed + {l.path}, files + 1;
          match hashOf(l.path) {
            case None => missing := missing + [l.path];
            case Some(got) => if got != l.hash { changed := changed + [l.path]; }
          }
      }
    }
    assert ps[..|ps|] == ps;
  }

  // ---- the unlisted ones

  predicate Expected(p: string, listed: set<string>) { p == SUMS_NAME || p == MARKER_NAME || p in listed }

  function Unlisted(walked: seq<string>, listed: set<string>): seq<string> {
    if walked == [] then []
    else
      var front, last := Unlisted(walked[..|walked| - 1], listed), walked[|walked| - 1];
      if Expected(last, listed) then front else front + [last]
  }

  method WalkFolder(walked: seq<string>, listed: set<string>) returns (unlisted: seq<string>)
    ensures unlisted == Unlisted(walked, listed)
  {
    unlisted := [];
    for i := 0 to |walked|
      invariant unlisted == Unlisted(walked[..i], listed)
    {
      assert walked[..i + 1][..i] == walked[..i];
      if !Expected(walked[i], listed) {
        unlisted := unlisted + [walked[i]];
      }
    }
    assert walked[..|walked|] == walked;
  }

  // ---- the derived files

  /** The paths of readable copies and of attachments. */
  datatype Derived = Derived(readable: set<string>, attachments: set<string>)

  function FilesDerived(files: seq<FileRec>): Derived {
    if files == [] then Derived({}, {})
    else
      var front, last := FilesDerived(files[..|files| - 1]), files[|files| - 1];
      match last.role
      case DerivedHTML => front.(readable := front.readable + {SumsPath(last.path)})
      case DerivedAttachment | DerivedAttachmentsZip => front.(attachments := front.attachments + {SumsPath(last.path)})
      case _ => front
  }

  function Both(a: Derived, b: Derived): Derived {
    Derived(a.readable + b.readable, a.attachments + b.attachments)
  }

  /** Those a record lists, whatever became of their messages. */
  function DerivedOf(ms: seq<Msg>): Derived {
    if ms == [] then Derived({}, {}) else Both(DerivedOf(ms[..|ms| - 1]), FilesDerived(ms[|ms| - 1].files))
  }

  /** derivedPaths. */
  method DerivedPaths(ms: seq<Msg>) returns (d: Derived)
    ensures d == DerivedOf(ms)
  {
    var readable: set<string>, attachments: set<string> := {}, {};
    for i := 0 to |ms|
      invariant Derived(readable, attachments) == DerivedOf(ms[..i])
    {
      assert ms[..i + 1][..i] == ms[..i];
      var files := ms[i].files;
      for j := 0 to |files|
        invariant Derived(readable, attachments) == Both(DerivedOf(ms[..i]), FilesDerived(files[..j]))
      {
        assert files[..j + 1][..j] == files[..j];
        match files[j].role {
          case DerivedHTML => readable := readable + {SumsPath(files[j].path)};
          case DerivedAttachment | DerivedAttachmentsZip => attachments := attachments + {SumsPath(files[j].path)};
          case _ =>
        }
      }
      assert files[..|files|] == files;
    }
    assert ms[..|ms|] == ms;
    d := Derived(readable, attachments);
  }

  ghost predicate Recorded(ms: seq<Msg>, f: FileRec) { exists i :: 0 <= i < |ms| && f in ms[i].files }

  predicate NamedAs(f: FileRec, p: string) { SumsPath(f.path) == p }

  lemma {:induction false} FilesDerivedAre(files: seq<FileRec>, p: string)
    ensures p in FilesDerived(files).readable <==> exists f :: f in files && f.role.DerivedHTML? && NamedAs(f, p)
    ensures p in FilesDerived(files).attachments <==>
      exists f :: f in files && Presence.IsDerivedAttach(f.role) && NamedAs(f, p)
  {
    if files != [] {
      var front, last := files[..|files| - 1], files[|files| - 1];
      FilesDerivedAre(front, p);
      LastDerived(files, p);
      hide FilesDerived, NamedAs, SumsPath;
      assert files == front + [last];
    }
  }

  lemma LastDerived(files: seq<FileRec>, p: string)
    requires files != []
    ensures var front, last := FilesDerived(files[..|files| - 1]), files[|files| - 1];
      && (p in FilesDerived(files).readable <==> p in front.readable || (last.role.DerivedHTML? && NamedAs(last, p)))
      && (p in FilesDerived(files).attachments
          <==> p in front.attachments || (Presence.IsDerivedAttach(last.role) && NamedAs(last, p)))
  {
    hide SumsPath;
  }

  /** A path is derived exactly when a file of a derived role was recorded under it. */
  lemma {:induction false} DerivedAre(ms: seq<Msg>, p: string)
    ensures p in DerivedOf(ms).readable <==> exists f :: Recorded(ms, f) && f.role.DerivedHTML? && NamedAs(f, p)
    ensures p in DerivedOf(ms).readable + DerivedOf(ms).attachments <==>
      exists f :: Recorded(ms, f) && Presence.IsDerived(f.role) && NamedAs(f, p)
  {
    if ms != [] {
      var front, last := ms[..|ms| - 1], ms[|ms| - 1];
      DerivedAre(front, p);
      FilesDerivedAre(last.files, p);
      hide NamedAs, SumsPath, FilesDerived;
      forall f ensures Recorded(ms, f) <==> Recorded(front, f) || f in last.files {
        RecordedMore(ms, f);
      }
      hide Recorded;
    }
  }

  lemma RecordedMore(ms: seq<Msg>, f: FileRec)
    requires ms != []
    ensures Recorded(ms, f) <==> Recorded(ms[..|ms| - 1], f) || f in ms[|ms| - 1].files
  {
    if i :| 0 <= i < |ms| && f in ms[i].files {
      assert i < |ms| - 1 ==> ms[..|ms| - 1][i] == ms[i];
    }
  }

  predicate IsDerivedPath(d: Derived, p: string) { p in d.readable || p in d.attachments }

  function KindOf(d: Derived, p: string): Kind {
    if p in d.readable then ReadableCopy else if p in d.attachments then Attachment else PlainFile
  }

  function FileProblems(paths: seq<string>, missing: bool, d: Derived): (r: seq<Problem>)
    ensures |r| == |paths|
    ensures forall i :: 0 <= i < |r| ==> r[i] == FileProblem(paths[i], missing, KindOf(d, paths[i]))
  {
    if paths == [] then []
    else
      var last := paths[|paths| - 1];
      FileProblems(paths[..|paths| - 1], missing, d) + [FileProblem(last, missing, KindOf(d, last))]
  }

  function CountKind(paths: seq<string>, d: Derived, kind: Kind): (n: nat)
    ensures n <= |paths|
  {
    if paths == [] then 0
    else CountKind(paths[..|paths| - 1], d, kind) + (if KindOf(d, paths[|paths| - 1]) == kind then 1 else 0)
  }

  function CountDerived(paths: seq<string>, d: Derived): nat {
    CountKind(paths, d, ReadableCopy) + CountKind(paths, d, Attachment)
  }

  method NameProblems(paths: seq<string>, missing: bool, d: Derived)
    returns (problems: seq<Problem>, derived: nat, attach: nat)
    ensures problems == FileProblems(paths, missing, d)
    ensures derived == CountDerived(paths, d) && attach == CountKind(paths, d, Attachment)
  {
    problems, derived, attach := [], 0, 0;
    for i := 0 to |paths|
      invariant problems == FileProblems(paths[..i], missing, d)
      invariant derived == CountDerived(paths[..i], d) && attach == CountKind(paths[..i], d, Attachment)
    {
      assert paths[..i + 1][..i] == paths[..i];
      var kind := KindOf(d, paths[i]);
      problems := problems + [FileProblem(paths[i], missing, kind)];
      match kind {
        case PlainFile =>
        case ReadableCopy => derived := derived + 1;
        case Attachment => derived, attach := derived + 1, attach + 1;
      }
    }
    assert paths[..|paths|] == paths;
  }

  function NotListeds(paths: seq<string>): (r: seq<Problem>)
    ensures |r| == |paths|
  {
    if paths == [] then [] else NotListeds(paths[..|paths| - 1]) + [NotListed(paths[|paths| - 1])]
  }

  // ---- the verdict

  function FingerprintProblems(fingerprint: string, sums: string): seq<Problem> {
    if fingerprint == "" then [NotRecorded] else if sums != fingerprint then [NotSealed] else []
  }

  function Unchecked(p: Problem): Verdict {
    Verdict(false, false, false, false, 0, [], [], [], [p])
  }

  function Judged(fps: seq<Problem>, bad: seq<Problem>, files: nat, changed: seq<string>, missing: seq<string>,
                  unlisted: seq<string>, d: Derived): Verdict {
    var problems := fps + bad + FileProblems(changed, false, d) + FileProblems(missing, true, d) + NotListeds(unlisted);
    var derived := CountDerived(changed, d) + CountDerived(missing, d);
    var derivedOnly := derived > 0 && |problems| == derived && fps == [];
    Verdict(problems == [] && fps == [],
            derivedOnly,
            derivedOnly && CountKind(changed, d, Attachment) + CountKind(missing, d, Attachment) == 0,
            fps == [], files, changed, missing, unlisted, problems)
  }

  function VerdictOf(view: View, fingerprint: string, sha: string -> string, d: Derived): Verdict {
    match ReadLimited(view.sums)
    case NoSums => Unchecked(SumsMissing)
    case Unreadable => Unchecked(SumsUnreadable)
    case Data(bytes) =>
      var ps := Parse(bytes);
      Judged(FingerprintProblems(fingerprint, sha(bytes)), Malformeds(ps), GoodCount(ps),
             Sort(Changed(ps, view.hashOf), Less),
             Sort(Missing(ps, view.hashOf), Less),
             Sort(Unlisted(view.walked, ListedPaths(ps)), Less), d)
  }

  method CompareFingerprint(fingerprint: string, sums: string) returns (ok: bool, problems: seq<Problem>)
    ensures problems == FingerprintProblems(fingerprint, sums) && ok == (problems == [])
  {
    ok, problems := false, [];
    if fingerprint == "" {
      problems := [NotRecorded];
    } else {
      ok := sums == fingerprint;
      if !ok {
        problems := [NotSealed];
      }
    }
  }

  method Judge(fingerprintOK: bool, fps: seq<Problem>, bad: seq<Problem>, files: nat, changed: seq<string>,
               missing: seq<string>, unlisted: seq<string>, d: Derived) returns (v: Verdict)
    requires fingerprintOK == (fps == [])
    ensures v == Judged(fps, bad, files, changed, missing, unlisted, d)
  {
    hide CountDerived;
    hide CountKind;
    hide FileProblems;
    hide NotListeds;
    var problems := fps + bad;
    var more, derived, attach := NameProblems(changed, false, d);
    problems := problems + more;
    var more', derived', attach' := NameProblems(missing, true, d);
    problems, derived, attach := problems + more', derived + derived', attach + attach';
    problems := problems + NotListeds(unlisted);
    var derivedOnly := derived > 0 && |problems| == derived && fingerprintOK;
    v := Verdict(|problems| == 0 && fingerprintOK, derivedOnly, derivedOnly && attach == 0, fingerprintOK, files,
                 changed, missing, unlisted, problems);
  }

  /** CheckExport, from the sums file on; `fingerprint` is the sealed one, "" when none was recorded, and `ms`
      the record's effective lines, none when it is gone. */
  method CheckExport(view: View, fingerprint: string, sha: string -> string, ms: seq<Msg>) returns (v: Verdict)
    ensures v == VerdictOf(view, fingerprint, sha, DerivedOf(ms))
  {
    hide Parse;
    hide Sort;
    hide Judged;
    hide FingerprintProblems;
    if view.sums.NoSums? {
      return Unchecked(SumsMissing);
    }
    if view.sums.Unreadable? || |view.sums.bytes| > SUMS_CAP {
      return Unchecked(SumsUnreadable);
    }
    var bytes := view.sums.bytes;
    var fingerprintOK, fps := CompareFingerprint(fingerprint, sha(bytes));
    var listed, files, changed, missing, bad := CheckLines(Parse(bytes), view.hashOf);
    var unlisted := WalkFolder(view.walked, listed);
    var d := DerivedPaths(ms);
    v := Judge(fingerprintOK, fps, bad, files, Sort(changed, Less), Sort(missing, Less), Sort(unlisted, Less), d);
  }

  // ---- what was found, by membership

  lemma {:induction false} BrokenAre(ps: seq<Parsed>, hashOf: string -> Option<string>, p: string)
    ensures p in Changed(ps, hashOf) || p in Missing(ps, hashOf) <==>
      exists i :: 0 <= i < |ps| && ps[i].Good? && ps[i].line.path == p && !Intact(hashOf, ps[i].line)
  {
    if ps != [] {
      var front := ps[..|ps| - 1];
      BrokenAre(front, hashOf, p);
      forall i | 0 <= i < |ps| && ps[i].Good? && ps[i].line.path == p && !Intact(hashOf, ps[i].line)
        ensures p in Changed(ps, hashOf) || p in Missing(ps, hashOf)
      {
        assert i < |ps| - 1 ==> front[i] == ps[i];
      }
    }
  }

  lemma {:induction false} ListedAre(ps: seq<Parsed>, p: string)
    ensures p in ListedPaths(ps) <==> exists i :: 0 <= i < |ps| && ps[i].Good? && ps[i].line.path == p
  {
    if ps != [] {
      var front := ps[..|ps| - 1];
      ListedAre(front, p);
      forall i | 0 <= i < |ps| && ps[i].Good? && ps[i].line.path == p ensures p in ListedPaths(ps) {
        assert i < |ps| - 1 ==> front[i] == ps[i];
      }
    }
  }

  lemma {:induction false} UnlistedAre(walked: seq<string>, listed: set<string>, p: string)
    ensures p in Unlisted(walked, listed) <==> p in walked && !Expected(p, listed)
  {
    if walked != [] {
      UnlistedAre(walked[..|walked| - 1], listed, p);
      assert walked == walked[..|walked| - 1] + [walked[|walked| - 1]];
    }
  }

  lemma {:induction false} NoneMalformed(ps: seq<Parsed>)
    requires forall i :: 0 <= i < |ps| ==> ps[i].Good?
    ensures Malformeds(ps) == []
  {
    if ps != [] {
      NoneMalformed(ps[..|ps| - 1]);
    }
  }

  lemma {:induction false} AllOfKind(paths: seq<string>, d: Derived)
    ensures CountDerived(paths, d) <= |paths|
    ensures CountDerived(paths, d) == |paths| <==> forall p :: p in paths ==> IsDerivedPath(d, p)
    ensures CountDerived(paths, d) == |paths| ==>
              (CountKind(paths, d, Attachment) == 0 <==> forall p :: p in paths ==> p in d.readable)
  {
    if paths != [] {
      AllOfKind(paths[..|paths| - 1], d);
      assert paths == paths[..|paths| - 1] + [paths[|paths| - 1]];
      assert paths[|paths| - 1] in paths;
    }
  }

  lemma JudgedMeans(fps: seq<Problem>, bad: seq<Problem>, files: nat, changed: seq<string>, missing: seq<string>,
                    unlisted: seq<string>, d: Derived)
    ensures var v := Judged(fps, bad, files, changed, missing, unlisted, d);
      && (v.ok <==> fps == [] && bad == [] && changed == [] && missing == [] && unlisted == [])
      && (v.derivedOnly <==>
            (fps == [] && bad == [] && unlisted == [] && changed + missing != []
             && forall p :: p in changed + missing ==> IsDerivedPath(d, p)))
      && (v.readableOnly <==> v.derivedOnly && forall p :: p in changed + missing ==> p in d.readable)
  {
    AllOfKind(changed, d);
    AllOfKind(missing, d);
    hide CountDerived;
    hide CountKind;
    hide FileProblems;
    hide NotListeds;
    hide IsDerivedPath;
  }

  // ---- what the verdict means

  ghost predicate AllIntact(hashOf: string -> Option<string>, lines: seq<SumLine>) {
    forall i :: 0 <= i < |lines| ==> Intact(hashOf, lines[i])
  }

  predicate Names(l: SumLine, p: string) { l.path == p }

  /** The folder holds nothing but the listed files, the sums and the marker. */
  ghost predicate NothingElse(walked: seq<string>, lines: seq<SumLine>) {
    forall p :: p in walked ==> p == SUMS_NAME || p == MARKER_NAME || exists i :: 0 <= i < |lines| && Names(lines[i], p)
  }

  ghost predicate NoCollision(sha: string -> string, a: string, b: string) { sha(a) == sha(b) ==> a == b }

  /** The fingerprint sealed for these lines, none of whose bytes on disk collide with them. */
  ghost predicate SealedAs(view: View, fingerprint: string, sha: string -> string, lines: seq<SumLine>) {
    && lines != [] && AllPrintable(lines)
    && fingerprint == sha(Render(lines)) && fingerprint != ""
    && (view.sums.Data? ==> NoCollision(sha, view.sums.bytes, Render(lines)))
  }

  ghost predicate ReadsAs(ps: seq<Parsed>, lines: seq<SumLine>) {
    |ps| == |lines| && forall i :: 0 <= i < |ps| ==> ps[i] == Good(lines[i])
  }

  lemma BrokenLines(ps: seq<Parsed>, lines: seq<SumLine>, hashOf: string -> Option<string>, p: string)
    requires ReadsAs(ps, lines)
    ensures p in Sort(Changed(ps, hashOf), Less) + Sort(Missing(ps, hashOf), Less) <==>
      exists i :: 0 <= i < |lines| && Names(lines[i], p) && !Intact(hashOf, lines[i])
  {
    BrokenAre(ps, hashOf, p);
    SameElements(Sort(Changed(ps, hashOf), Less), Changed(ps, hashOf));
    SameElements(Sort(Missing(ps, hashOf), Less), Missing(ps, hashOf));
    forall i | 0 <= i < |ps| && ps[i].Good? && ps[i].line.path == p && !Intact(hashOf, ps[i].line)
      ensures Names(lines[i], p) && !Intact(hashOf, lines[i])
    {
    }
    forall i | 0 <= i < |lines| && Names(lines[i], p) && !Intact(hashOf, lines[i])
      ensures ps[i].Good? && ps[i].line.path == p && !Intact(hashOf, ps[i].line)
    {
    }
  }

  lemma UnlistedNone(ps: seq<Parsed>, lines: seq<SumLine>, walked: seq<string>)
    requires ReadsAs(ps, lines)
    ensures Sort(Unlisted(walked, ListedPaths(ps)), Less) == [] <==> NothingElse(walked, lines)
  {
    var listed := ListedPaths(ps);
    forall p ensures p in listed <==> exists i :: 0 <= i < |lines| && Names(lines[i], p) {
      ListedAre(ps, p);
      assert forall i :: 0 <= i < |ps| ==> (ps[i].line.path == p <==> Names(lines[i], p));
    }
    forall p ensures p in Unlisted(walked, listed) <==> p in walked && !Expected(p, listed) {
      UnlistedAre(walked, listed, p);
    }
    if Unlisted(walked, listed) != [] {
      assert Unlisted(walked, listed)[0] in Unlisted(walked, listed);
    }
  }

  ghost predicate BrokenAllIn(hashOf: string -> Option<string>, lines: seq<SumLine>, paths: set<string>) {
    forall i :: 0 <= i < |lines| ==> Intact(hashOf, lines[i]) || lines[i].path in paths
  }

  lemma VerdictMeans(view: View, fingerprint: string, sha: string -> string, d: Derived, lines: seq<SumLine>)
    requires SealedAs(view, fingerprint, sha, lines) && view.sums == Data(Render(lines)) && |Render(lines)| <= SUMS_CAP
    ensures var v := VerdictOf(view, fingerprint, sha, d);
      && (v.ok <==> AllIntact(view.hashOf, lines) && NothingElse(view.walked, lines))
      && (v.derivedOnly <==>
            (NothingElse(view.walked, lines) && !AllIntact(view.hashOf, lines)
             && BrokenAllIn(view.hashOf, lines, d.readable + d.attachments)))
      && (v.readableOnly <==> v.derivedOnly && BrokenAllIn(view.hashOf, lines, d.readable))
  {
    hide Render;
    hide Parse;
    hide Sort;
    ParseRender(lines);
    var ps := Parse(view.sums.bytes);
    assert ReadsAs(ps, lines);
    NoneMalformed(ps);
    var changed, missing := Sort(Changed(ps, view.hashOf), Less), Sort(Missing(ps, view.hashOf), Less);
    var unlisted := Sort(Unlisted(view.walked, ListedPaths(ps)), Less);
    UnlistedNone(ps, lines, view.walked);
    JudgedMeans([], [], GoodCount(ps), changed, missing, unlisted, d);
    BrokenSets(view.hashOf, lines, changed + missing, ps);
    hide Judged;
    hide NothingElse;
    hide BrokenAllIn;
    hide AllIntact;
    assert changed + missing == [] <==> changed == [] && missing == [];
    assert forall p :: p in changed + missing ==> (IsDerivedPath(d, p) <==> p in d.readable + d.attachments);
    BrokenIn(view.hashOf, lines, changed + missing, d.readable + d.attachments);
    BrokenIn(view.hashOf, lines, changed + missing, d.readable);
  }

  ghost predicate BrokenPaths(hashOf: string -> Option<string>, lines: seq<SumLine>, broken: seq<string>) {
    forall p :: p in broken <==> exists i :: 0 <= i < |lines| && Names(lines[i], p) && !Intact(hashOf, lines[i])
  }

  lemma BrokenSets(hashOf: string -> Option<string>, lines: seq<SumLine>, broken: seq<string>, ps: seq<Parsed>)
    requires ReadsAs(ps, lines)
    requires broken == Sort(Changed(ps, hashOf), Less) + Sort(Missing(ps, hashOf), Less)
    ensures BrokenPaths(hashOf, lines, broken)
    ensures broken == [] <==> AllIntact(hashOf, lines)
  {
    forall p
      ensures p in broken <==> exists i :: 0 <= i < |lines| && Names(lines[i], p) && !Intact(hashOf, lines[i])
    {
      BrokenLines(ps, lines, hashOf, p);
    }
    if broken != [] {
      assert broken[0] in broken;
    }
    forall i | 0 <= i < |lines| && !Intact(hashOf, lines[i]) ensures broken != [] {
      assert Names(lines[i], lines[i].path);
      assert lines[i].path in broken;
    }
  }

  lemma BrokenIn(hashOf: string -> Option<string>, lines: seq<SumLine>, broken: seq<string>, paths: set<string>)
    requires BrokenPaths(hashOf, lines, broken)
    ensures (forall p :: p in broken ==> p in paths) <==> BrokenAllIn(hashOf, lines, paths)
  {
    forall i | 0 <= i < |lines| && !Intact(hashOf, lines[i]) ensures lines[i].path in broken {
      assert Names(lines[i], lines[i].path);
    }
  }

  /** A check that cannot read the sums finds that and nothing else. */
  lemma UnreadMeans(view: View, fingerprint: string, sha: string -> string, d: Derived)
    requires !view.sums.Data? || |view.sums.bytes| > SUMS_CAP
    ensures var v := VerdictOf(view, fingerprint, sha, d);
      && v.problems == [if view.sums.NoSums? then SumsMissing else SumsUnreadable]
      && !v.ok && !v.derivedOnly && !v.readableOnly && !v.fingerprintOK && v.files == 0
      && v.changed == [] && v.missing == [] && v.unlisted == []
  {
    hide Parse, Sort;
  }

  lemma OtherSums(view: View, fingerprint: string, sha: string -> string, d: Derived, lines: seq<SumLine>)
    requires SealedAs(view, fingerprint, sha, lines) && (view.sums != Data(Render(lines)) || |Render(lines)| > SUMS_CAP)
    ensures var v := VerdictOf(view, fingerprint, sha, d);
      !v.ok && !v.derivedOnly && !v.readableOnly
  {
    hide Render;
    hide Parse;
    hide Sort;
    hide FileProblems;
    hide CountDerived;
    hide NotListeds;
  }

  lemma {:induction false} ChangedAre(ps: seq<Parsed>, hashOf: string -> Option<string>, p: string)
    ensures p in Changed(ps, hashOf) <==>
      exists i :: 0 <= i < |ps| && ps[i].Good? && ps[i].line.path == p && hashOf(p).Some? && hashOf(p) != Some(ps[i].line.hash)
    ensures p in Missing(ps, hashOf) <==>
      exists i :: 0 <= i < |ps| && ps[i].Good? && ps[i].line.path == p && hashOf(p).None?
  {
    if ps != [] {
      var front := ps[..|ps| - 1];
      ChangedAre(front, hashOf, p);
      forall i | 0 <= i < |front| ensures front[i] == ps[i] {
      }
      forall i | 0 <= i < |ps| && ps[i].Good? && ps[i].line.path == p
        ensures hashOf(p).Some? && hashOf(p) != Some(ps[i].line.hash) ==> p in Changed(ps, hashOf)
        ensures hashOf(p).None? ==> p in Missing(ps, hashOf)
      {
        assert i < |ps| - 1 ==> front[i] == ps[i];
      }
    }
  }

  lemma {:induction false} AllGood(ps: seq<Parsed>)
    requires forall i :: 0 <= i < |ps| ==> ps[i].Good?
    ensures GoodCount(ps) == |ps|
  {
    if ps != [] {
      AllGood(ps[..|ps| - 1]);
    }
  }

  ghost predicate LineFor(lines: seq<SumLine>, p: string, l: SumLine) { l in lines && l.path == p }

  /** What a check of the sealed sums finds, each finding by what the folder shows: a listed file that opens with
      another hash is changed, one that does not open is missing, one that nothing lists is unlisted; every line is a
      file checked, and there is a problem for each finding and no other. */
  lemma FindingsAre(view: View, fingerprint: string, sha: string -> string, d: Derived, lines: seq<SumLine>, p: string)
    requires SealedAs(view, fingerprint, sha, lines) && view.sums == Data(Render(lines)) && |Render(lines)| <= SUMS_CAP
    ensures var v := VerdictOf(view, fingerprint, sha, d);
      && (p in v.changed <==> exists l :: LineFor(lines, p, l) && view.hashOf(p).Some? && view.hashOf(p).value != l.hash)
      && (p in v.missing <==> view.hashOf(p).None? && exists l :: LineFor(lines, p, l))
      && (p in v.unlisted <==> p in view.walked && p != SUMS_NAME && p != MARKER_NAME && forall l :: !LineFor(lines, p, l))
      && v.files == |lines| && v.fingerprintOK
      && |v.problems| == |v.changed| + |v.missing| + |v.unlisted|
  {
    hide Render, Parse, Sort;
    ParseRender(lines);
    var ps := Parse(view.sums.bytes);
    assert ReadsAs(ps, lines);
    NoneMalformed(ps);
    AllGood(ps);
    ChangedAre(ps, view.hashOf, p);
    ListedAre(ps, p);
    UnlistedAre(view.walked, ListedPaths(ps), p);
    SameElements(Sort(Changed(ps, view.hashOf), Less), Changed(ps, view.hashOf));
    SameElements(Sort(Missing(ps, view.hashOf), Less), Missing(ps, view.hashOf));
    SameElements(Sort(Unlisted(view.walked, ListedPaths(ps)), Less), Unlisted(view.walked, ListedPaths(ps)));
    LineIs(ps, lines, p);
    hide Changed, Missing, Unlisted, ListedPaths, Malformeds, GoodCount;
  }

  lemma LineIs(ps: seq<Parsed>, lines: seq<SumLine>, p: string)
    requires ReadsAs(ps, lines)
    ensures forall i :: 0 <= i < |ps| && ps[i].Good? && ps[i].line.path == p ==> LineFor(lines, p, ps[i].line)
    ensures forall l :: LineFor(lines, p, l) ==> exists i :: 0 <= i < |ps| && ps[i].Good? && ps[i].line == l
  {
    forall l | LineFor(lines, p, l) ensures exists i :: 0 <= i < |ps| && ps[i].Good? && ps[i].line == l {
      var i :| 0 <= i < |lines| && lines[i] == l;
      assert ps[i].line == l;
    }
  }

  /** A check is green exactly when the sums in the folder are the sealed ones and no longer than it reads,
      every listed file has its recorded hash, and nothing else but the sums and the marker is in the folder. */
  lemma GreenMeansIntact(view: View, fingerprint: string, sha: string -> string, d: Derived, lines: seq<SumLine>)
    requires SealedAs(view, fingerprint, sha, lines)
    ensures VerdictOf(view, fingerprint, sha, d).ok <==>
      view.sums == Data(Render(lines)) && |Render(lines)| <= SUMS_CAP
      && AllIntact(view.hashOf, lines) && NothingElse(view.walked, lines)
  {
    hide VerdictOf;
    hide Render;
    if view.sums == Data(Render(lines)) && |Render(lines)| <= SUMS_CAP {
      VerdictMeans(view, fingerprint, sha, d, lines);
    } else {
      OtherSums(view, fingerprint, sha, d, lines);
    }
  }

  lemma DerivedOnlyMeans(view: View, fingerprint: string, sha: string -> string, d: Derived, lines: seq<SumLine>)
    requires SealedAs(view, fingerprint, sha, lines)
    ensures var v := VerdictOf(view, fingerprint, sha, d);
      && (v.derivedOnly <==>
            (view.sums == Data(Render(lines)) && |Render(lines)| <= SUMS_CAP
             && NothingElse(view.walked, lines) && !AllIntact(view.hashOf, lines)
             && BrokenAllIn(view.hashOf, lines, d.readable + d.attachments)))
      && (v.readableOnly <==> v.derivedOnly && BrokenAllIn(view.hashOf, lines, d.readable))
  {
    hide VerdictOf;
    hide Render;
    if view.sums == Data(Render(lines)) && |Render(lines)| <= SUMS_CAP {
      VerdictMeans(view, fingerprint, sha, d, lines);
    } else {
      OtherSums(view, fingerprint, sha, d, lines);
    }
  }

  // ---- the listed files by their roles

  /** Files recorded under one path in the sums are all derived or none, and none of the two that are the
      export's own is. */
  ghost predicate RolesTell(ms: seq<Msg>) {
    && (forall f, g :: Recorded(ms, f) && Recorded(ms, g) && SumsPath(f.path) == SumsPath(g.path) ==>
          Presence.IsDerived(f.role) == Presence.IsDerived(g.role))
    && (forall f :: Recorded(ms, f) && Presence.IsDerived(f.role) ==> SumsPath(f.path) !in {README_NAME, MANIFEST_NAME})
  }

  predicate FileIntact(view: View, f: FileRec) { view.hashOf(SumsPath(f.path)) == Some(f.sha) }

  /** The export's own two files and every original it lists hold their recorded bytes. */
  ghost predicate OriginalsIntact(view: View, readme: string, manifest: string, ms: seq<Msg>) {
    && view.hashOf(README_NAME) == Some(readme) && view.hashOf(MANIFEST_NAME) == Some(manifest)
    && forall f :: ListedFile(ms, f) && !Presence.IsDerived(f.role) ==> FileIntact(view, f)
  }

  /** A red check that blames derived copies only, exactly when the sums are the sealed ones and are read,
      nothing is unlisted, every original is as it was, and some derived copy is not. */
  lemma DerivedOnlyMeansOriginalsIntact(view: View, sha: string -> string, readme: string, manifest: string, ms: seq<Msg>)
    requires RolesTell(ms)
    requires SealedAs(view, sha(Render(SealedLines(readme, manifest, ms))), sha, SealedLines(readme, manifest, ms))
    ensures var lines := SealedLines(readme, manifest, ms);
      VerdictOf(view, sha(Render(lines)), sha, DerivedOf(ms)).derivedOnly <==>
        (view.sums == Data(Render(lines)) && |Render(lines)| <= SUMS_CAP && NothingElse(view.walked, lines)
         && OriginalsIntact(view, readme, manifest, ms) && SomeDerivedBroken(view, ms))
  {
    var lines, d := SealedLines(readme, manifest, ms), DerivedOf(ms);
    DerivedOnlyMeans(view, sha(Render(lines)), sha, d, lines);
    hide VerdictOf, Render, SealedLines;
    BrokenByRole(view, readme, manifest, ms);
  }

  ghost predicate IsLine(readme: string, manifest: string, ms: seq<Msg>, l: SumLine) {
    || l == SumLine(README_NAME, readme) || l == SumLine(MANIFEST_NAME, manifest)
    || exists f :: ListedFile(ms, f) && l == SumLine(SumsPath(f.path), f.sha)
  }

  ghost predicate DerivedName(ms: seq<Msg>, p: string) {
    exists f :: Recorded(ms, f) && Presence.IsDerived(f.role) && NamedAs(f, p)
  }

  ghost predicate SomeDerivedBroken(view: View, ms: seq<Msg>) {
    exists f :: ListedFile(ms, f) && Presence.IsDerived(f.role) && !FileIntact(view, f)
  }

  lemma ListedRecorded(ms: seq<Msg>, f: FileRec)
    requires ListedFile(ms, f)
    ensures Recorded(ms, f)
  {
  }

  /** A listed file under a derived file's path has a derived role itself. */
  lemma NamedDerived(ms: seq<Msg>, f: FileRec)
    requires RolesTell(ms) && ListedFile(ms, f) && DerivedName(ms, SumsPath(f.path))
    ensures Presence.IsDerived(f.role)
  {
    ListedRecorded(ms, f);
    hide ListedFile, Recorded, SumsPath;
  }

  lemma DerivedLineBroken(view: View, readme: string, manifest: string, ms: seq<Msg>, l: SumLine)
    requires RolesTell(ms) && IsLine(readme, manifest, ms, l) && !Intact(view.hashOf, l) && DerivedName(ms, l.path)
    ensures SomeDerivedBroken(view, ms)
  {
    hide SumsPath, ListedFile, Recorded;
    var f :| ListedFile(ms, f) && l == SumLine(SumsPath(f.path), f.sha);
    NamedDerived(ms, f);
    assert !FileIntact(view, f);
  }

  lemma BrokenIsDerived(view: View, readme: string, manifest: string, ms: seq<Msg>, l: SumLine)
    requires OriginalsIntact(view, readme, manifest, ms) && IsLine(readme, manifest, ms, l) && !Intact(view.hashOf, l)
    ensures DerivedName(ms, l.path)
  {
    hide SumsPath, ListedFile, Recorded;
    var f :| ListedFile(ms, f) && l == SumLine(SumsPath(f.path), f.sha);
    assert !FileIntact(view, f);
    ListedRecorded(ms, f);
    assert NamedAs(f, l.path);
  }

  lemma OriginalsHold(view: View, readme: string, manifest: string, ms: seq<Msg>)
    requires RolesTell(ms)
    requires forall l :: IsLine(readme, manifest, ms, l) && !Intact(view.hashOf, l) ==> DerivedName(ms, l.path)
    ensures OriginalsIntact(view, readme, manifest, ms)
  {
    var first, second := SumLine(README_NAME, readme), SumLine(MANIFEST_NAME, manifest);
    assert IsLine(readme, manifest, ms, first) && IsLine(readme, manifest, ms, second);
    assert !DerivedName(ms, README_NAME) && !DerivedName(ms, MANIFEST_NAME);
    hide SumsPath, ListedFile, Recorded;
    forall f | ListedFile(ms, f) && !Presence.IsDerived(f.role) ensures FileIntact(view, f) {
      var l := SumLine(SumsPath(f.path), f.sha);
      assert IsLine(readme, manifest, ms, l);
      if DerivedName(ms, l.path) {
        NamedDerived(ms, f);
      }
    }
  }

  lemma DerivedBreaks(view: View, readme: string, manifest: string, ms: seq<Msg>)
    requires SomeDerivedBroken(view, ms)
    ensures exists l :: IsLine(readme, manifest, ms, l) && !Intact(view.hashOf, l)
  {
    hide SumsPath, ListedFile;
    var f :| ListedFile(ms, f) && Presence.IsDerived(f.role) && !FileIntact(view, f);
    assert IsLine(readme, manifest, ms, SumLine(SumsPath(f.path), f.sha));
  }

  /** Whether broken lines are all derived ones, by the roles of the files they stand for. */
  lemma BrokenByRole(view: View, readme: string, manifest: string, ms: seq<Msg>)
    requires RolesTell(ms)
    ensures var lines, d := SealedLines(readme, manifest, ms), DerivedOf(ms);
      !AllIntact(view.hashOf, lines) && BrokenAllIn(view.hashOf, lines, d.readable + d.attachments) <==>
        OriginalsIntact(view, readme, manifest, ms) && SomeDerivedBroken(view, ms)
  {
    var lines, d := SealedLines(readme, manifest, ms), DerivedOf(ms);
    forall l ensures l in lines <==> IsLine(readme, manifest, ms, l) {
      FileIsListed(readme, manifest, ms, l);
    }
    forall p ensures p in d.readable + d.attachments <==> DerivedName(ms, p) {
      DerivedAre(ms, p);
    }
    ByRole(view, readme, manifest, ms, lines, d.readable + d.attachments);
  }

  lemma ByRole(view: View, readme: string, manifest: string, ms: seq<Msg>, lines: seq<SumLine>, paths: set<string>)
    requires RolesTell(ms)
    requires forall l :: l in lines <==> IsLine(readme, manifest, ms, l)
    requires forall p :: p in paths <==> DerivedName(ms, p)
    ensures !AllIntact(view.hashOf, lines) && BrokenAllIn(view.hashOf, lines, paths) <==>
      OriginalsIntact(view, readme, manifest, ms) && SomeDerivedBroken(view, ms)
  {
    hide RolesTell, IsLine, DerivedName, OriginalsIntact, SomeDerivedBroken;
    forall i | 0 <= i < |lines| && !Intact(view.hashOf, lines[i])
      ensures DerivedName(ms, lines[i].path) ==> SomeDerivedBroken(view, ms)
      ensures OriginalsIntact(view, readme, manifest, ms) ==> DerivedName(ms, lines[i].path)
    {
      assert lines[i] in lines;
      if DerivedName(ms, lines[i].path) {
        DerivedLineBroken(view, readme, manifest, ms, lines[i]);
      } else if OriginalsIntact(view, readme, manifest, ms) {
        BrokenIsDerived(view, readme, manifest, ms, lines[i]);
      }
    }
    if BrokenAllIn(view.hashOf, lines, paths) {
      forall l | IsLine(readme, manifest, ms, l) && !Intact(view.hashOf, l) ensures DerivedName(ms, l.path) {
        var i :| 0 <= i < |lines| && lines[i] == l;
      }
      OriginalsHold(view, readme, manifest, ms);
    }
    if SomeDerivedBroken(view, ms) {
      DerivedBreaks(view, readme, manifest, ms);
      var l :| IsLine(readme, manifest, ms, l) && !Intact(view.hashOf, l);
      var i :| 0 <= i < |lines| && lines[i] == l;
    }
  }

  ghost predicate ListedFile(ms: seq<Msg>, f: FileRec) {
    exists i :: 0 <= i < |ms| && Listed(ms[i].status) && f in ms[i].files
  }

  lemma ListedLineIs(ms: seq<Msg>, l: SumLine)
    ensures l in ListedLines(ms) <==> exists f :: ListedFile(ms, f) && l == SumLine(SumsPath(f.path), f.sha)
  {
    ListedLinesAre(ms, l);
    hide ListedLines;
    hide SumsPath;
    if l in ListedLines(ms) {
      var i, j :| 0 <= i < |ms| && Listed(ms[i].status) && 0 <= j < |ms[i].files|
        && l == SumLine(SumsPath(ms[i].files[j].path), ms[i].files[j].sha);
      assert ms[i].files[j] in ms[i].files;
      assert ListedFile(ms, ms[i].files[j]);
    }
    forall f | ListedFile(ms, f) && l == SumLine(SumsPath(f.path), f.sha) ensures l in ListedLines(ms) {
      var i :| 0 <= i < |ms| && Listed(ms[i].status) && f in ms[i].files;
      var j :| 0 <= j < |ms[i].files| && ms[i].files[j] == f;
    }
  }

  lemma FileIsListed(readme: string, manifest: string, ms: seq<Msg>, l: SumLine)
    ensures l in SealedLines(readme, manifest, ms) <==>
      l == SumLine(README_NAME, readme) || l == SumLine(MANIFEST_NAME, manifest)
      || exists f :: ListedFile(ms, f) && l == SumLine(SumsPath(f.path), f.sha)
  {
    var first := [SumLine(README_NAME, readme), SumLine(MANIFEST_NAME, manifest)];
    SameElements(SealedLines(readme, manifest, ms), first + ListedLines(ms));
    ListedLineIs(ms, l);
    hide ListedLines, ListedFile, SumsPath, SealedLines;
    assert l in first + ListedLines(ms) <==> l in first || l in ListedLines(ms);
  }

  // ---- the check that completes an interrupted seal

  datatype SumsFault = SumsGone | SumsBroken | OtherFingerprint | BadLine | FileFault(path: string)

  /** What checkSums makes of one line: it is stricter than the check of a folder about blank lines and
      looser about the length of a hash. */
  function LineFault(hashOf: string -> Option<string>, line: string): Option<SumsFault> {
    var k := Gap(line, 0);
    if k == |line| then Some(BadLine)
    else if hashOf(line[k + 2..]) == Some(line[..k]) then None else Some(FileFault(line[k + 2..]))
  }

  ghost predicate PassesCheckSums(view: View, fingerprint: string, sha: string -> string) {
    && view.sums.Data? && sha(view.sums.bytes) == fingerprint
    && forall i :: 0 <= i < |Pieces(view.sums.bytes)| ==> LineFault(view.hashOf, Pieces(view.sums.bytes)[i]).None?
  }

  /** The fault of the first line that has one: it has no two spaces, or the file it names does not hash to it. */
  ghost predicate FirstFault(hashOf: string -> Option<string>, pieces: seq<string>, i: int, fault: SumsFault) {
    && 0 <= i < |pieces| && LineFault(hashOf, pieces[i]) == Some(fault)
    && (forall k :: 0 <= k < i ==> LineFault(hashOf, pieces[k]).None?)
    && (fault == BadLine || exists l: SumLine :: pieces[i] == RenderLine(l) && fault == FileFault(l.path) && !Intact(hashOf, l))
  }

  lemma FaultOfLine(hashOf: string -> Option<string>, line: string)
    ensures LineFault(hashOf, line).Some? && LineFault(hashOf, line).value != BadLine ==>
              exists l: SumLine :: line == RenderLine(l) && LineFault(hashOf, line).value == FileFault(l.path) && !Intact(hashOf, l)
    ensures LineFault(hashOf, line) == Some(BadLine) <==>
              forall k :: 0 <= k < |line| - 1 ==> !(line[k] == ' ' && line[k + 1] == ' ')
    ensures LineFault(hashOf, line).Some? ==> LineFault(hashOf, line).value.BadLine? || LineFault(hashOf, line).value.FileFault?
  {
    var k := Gap(line, 0);
    if k < |line| {
      var l := SumLine(line[k + 2..], line[..k]);
      assert line == RenderLine(l);
    }
  }

  /** checkSums: the first fault found, None when the folder is as sealed. */
  method CheckSums(view: View, fingerprint: string, sha: string -> string) returns (fault: Option<SumsFault>)
    ensures fault.None? <==> PassesCheckSums(view, fingerprint, sha)
    ensures view.sums.NoSums? <==> fault == Some(SumsGone)
    ensures view.sums.Unreadable? <==> fault == Some(SumsBroken)
    ensures view.sums.Data? && sha(view.sums.bytes) != fingerprint <==> fault == Some(OtherFingerprint)
    ensures fault.Some? && view.sums.Data? && sha(view.sums.bytes) == fingerprint ==>
              exists i :: FirstFault(view.hashOf, Pieces(view.sums.bytes), i, fault.value)
  {
    hide Pieces;
    if view.sums.NoSums? {
      return Some(SumsGone);
    }
    if view.sums.Unreadable? {
      return Some(SumsBroken);
    }
    if sha(view.sums.bytes) != fingerprint {
      return Some(OtherFingerprint);
    }
    var pieces := Pieces(view.sums.bytes);
    for i := 0 to |pieces|
      invariant forall k :: 0 <= k < i ==> LineFault(view.hashOf, pieces[k]).None?
    {
      fault := LineFault(view.hashOf, pieces[i]);
      FaultOfLine(view.hashOf, pieces[i]);
      if fault.Some? {
        assert FirstFault(view.hashOf, pieces, i, fault.value);
        return;
      }
    }
    return None;
  }

  /** The two checks of a sealed folder: the second passes exactly when the sums are the sealed ones and every
      listed file is intact, and the first is green exactly when it does too, nothing is unlisted and the
      sums are no longer than the first reads: the second reads them whole. */
  lemma ChecksAgree(view: View, fingerprint: string, sha: string -> string, d: Derived, lines: seq<SumLine>)
    requires SealedAs(view, fingerprint, sha, lines)
    ensures PassesCheckSums(view, fingerprint, sha) <==> view.sums == Data(Render(lines)) && AllIntact(view.hashOf, lines)
    ensures VerdictOf(view, fingerprint, sha, d).ok <==>
      PassesCheckSums(view, fingerprint, sha) && NothingElse(view.walked, lines) && |Render(lines)| <= SUMS_CAP
  {
    GreenMeansIntact(view, fingerprint, sha, d, lines);
    hide VerdictOf;
    hide NothingElse;
    hide Render;
    if view.sums == Data(Render(lines)) {
      PiecesOfRender(lines);
      hide Pieces;
      var pieces := Pieces(view.sums.bytes);
      forall i | 0 <= i < |lines| ensures LineFault(view.hashOf, pieces[i]).None? <==> Intact(view.hashOf, lines[i]) {
        assert Printable(lines[i]);
        LineFaultRendered(view.hashOf, lines[i]);
      }
    }
  }

  lemma LineFaultRendered(hashOf: string -> Option<string>, l: SumLine)
    requires Printable(l)
    ensures LineFault(hashOf, RenderLine(l)).None? <==> Intact(hashOf, l)
  {
    ParseRendered(l);
  }
}
