/** Exports whose job is not what its command says when it is read again, and whose flat form is not their
    job: a comma, white space of Unicode at an edge, and a log. */
module JobExamples {
  import opened Flags
  import opened JobForms
  import opened Jobs
  import opened Wrappers

  /** Paths taken from the root and as they are. */
  function FromRoot(p: string): string { if p != "" && p[0] == '/' then p else "/" + p }

  function PlainEnv(): Env {
    Env(FromRoot, (p: string) => FromRoot(p), (s: string) => true, (s: string) => Some(s), (s: string) => s, true, true)
  }

  /** What is assumed of a platform can be met. */
  lemma PlainEnvOk()
    ensures EnvOk(PlainEnv()) && Rooted(PlainEnv())
  {
    forall p | NoControl(p) ensures NoControl(FromRoot(p)) {
    }
  }

  function Export(p: string): seq<string> { ["-out", "/o", p] }

  function LoggedExport(p: string): seq<string> { ["-out", "/o", "-log", "/l", p] }

  function ExportOpts(p: string, log: string): Opts { Defaults().(out := "/o", log := log, inputs := [p]) }

  predicate Input(p: string) { p != "" && p[0] == '/' && NoControl(p) }

  lemma ScanPositional(p: string)
    requires Input(p)
    ensures Scan(ExportFlags(), [p]) == Scanned([], [p])
  {
  }

  lemma ScanValue(f: Flag, v: string, rest: seq<string>)
    requires Jobs.Takes(f)
    ensures Scan(ExportFlags(), ["-" + NameOf(f), v] + rest) == Prepend(Setting(f, v), Scan(ExportFlags(), rest))
  {
    var fs := ExportFlags();
    FlagsDefined([Setting(f, v)]);
    assert Defined(fs, [Setting(f, v)][0].flag);
    LookupIs(f);
    assert EmitOne(fs, Setting(f, v)) == ["-" + NameOf(f), v];
    ScanOne(fs, Setting(f, v), rest);
  }

  lemma ScanExports(p: string)
    requires Input(p)
    ensures Scan(ExportFlags(), Export(p)) == Scanned([Setting(Out, "/o")], [p])
    ensures Scan(ExportFlags(), LoggedExport(p)) == Scanned([Setting(Out, "/o"), Setting(LogFile, "/l")], [p])
  {
    ScanPositional(p);
    assert "-" + NameOf(Out) == "-out" && "-" + NameOf(LogFile) == "-log";
    hide Scan;
    ScanValue(Out, "/o", [p]);
    assert ["-out", "/o"] + [p] == Export(p);
    ScanValue(LogFile, "/l", [p]);
    assert ["-log", "/l"] + [p] == ["-log", "/l", p];
    ScanValue(Out, "/o", ["-log", "/l", p]);
    assert ["-out", "/o"] + ["-log", "/l", p] == LoggedExport(p);
    hide ExportFlags;
    var o, l := Setting(Out, "/o"), Setting(LogFile, "/l");
    assert [o] + [] == [o] && [o] + [l] == [o, l] && [l] + [] == [l];
  }

  lemma FoldExports(env: Env)
    ensures Fold(env, Defaults(), [Setting(Out, "/o")]) == Some(Defaults().(out := "/o"))
    ensures Fold(env, Defaults(), [Setting(Out, "/o"), Setting(LogFile, "/l")]) == Some(Defaults().(out := "/o", log := "/l"))
  {
    var o, l := Setting(Out, "/o"), Setting(LogFile, "/l");
    FoldMore(env, Defaults(), [], o);
    FoldMore(env, Defaults(), [o], l);
    assert [] + [o] == [o] && [o] + [l] == [o, l];
    assert Fold(env, Defaults(), []) == Some(Defaults());
    hide Fold;
  }

  /** Such exports are accepted, with or without a log. */
  lemma ExportsParse(p: string)
    requires Input(p)
    ensures var env := PlainEnv();
      && ParseFlags(env, Export(p)) == Some(ExportOpts(p, "")) && Accepts(env, ExportOpts(p, ""))
      && ParseFlags(env, LoggedExport(p)) == Some(ExportOpts(p, "/l")) && Accepts(env, ExportOpts(p, "/l"))
  {
    var env := PlainEnv();
    ScanExports(p);
    FoldExports(env);
    hide Scan, Fold;
    assert [] + [p] == [p];
    ExportsAccepted(p, "");
    ExportsAccepted(p, "/l");
    hide Accepts;
  }

  lemma ExportsAccepted(p: string, log: string)
    requires Input(p) && NoControl(log)
    ensures Accepts(PlainEnv(), ExportOpts(p, log))
  {
    NoControlEmpty();
  }

  lemma ExportsCanonical(p: string, log: string)
    requires Input(p)
    ensures var c := Canonical(PlainEnv(), ExportOpts(p, log));
      c.inputs == [p] && c.follow == []
  {
    AbsOne(p);
    assert AbsAll(PlainEnv(), []) == [];
    hide AbsAll, Abs, JobOn, NoControl;
  }

  lemma OneInput(p: string)
    ensures AllPieces([p]) == Pieces(p)
  {
    assert [p][..0] == [];
    assert AllPieces([]) == [];
    hide Pieces;
    assert [] + Pieces(p) == Pieces(p);
  }

  lemma NoneAtAll()
    ensures AllPieces([]) == []
  {
  }

  /** The job is read again from its command as it was exactly where the input is one piece; it is accepted
      again in any case. */
  lemma ReadAgain(p: string)
    requires Input(p)
    ensures var env := PlainEnv();
      var job := ParseExport(env, Export(p));
      job.Some?
      && ParseExport(env, job.value.args).Some?
      && (ParseExport(env, job.value.args) == job <==> OnePiece(p))
  {
    hide *;
    var env, o := PlainEnv(), ExportOpts(p, "");
    var c := Canonical(env, o);
    PlainEnvOk();
    ExportsParse(p);
    ExportsCanonical(p, "");
    OneOnly(c, p);
    CommandReparsesExactly(env, Export(p), o);
    CanonicalKept(env, Export(p), o);
    ReparseIs(env, c);
    AcceptsCanonical(env, o);
    AcceptsReread(env, c, p);
    Parsed(env, Export(p), o);
    Parsed(env, JobOf(c).args, Reread(c));
  }

  lemma OneOnly(c: Opts, p: string)
    requires c.inputs == [p] && c.follow == []
    ensures AllOnePiece(c.inputs) && AllOnePiece(c.follow) <==> OnePiece(p)
  {
    assert c.inputs[0] == p;
    hide OnePiece;
  }

  lemma AcceptsReread(env: Env, c: Opts, p: string)
    requires Accepts(env, c) && c.inputs == [p] && c.follow == []
    ensures Accepts(env, Reread(c))
  {
    PiecesNoControl(c.inputs);
    NoneAtAll();
    hide NoControl, AllPieces;
  }

  /** The flat form is the job exactly where the input is one piece and no log is asked for. */
  lemma FlatAgain(p: string)
    requires Input(p)
    ensures var env := PlainEnv();
      && (ParseExport(env, Emit(ExportFlags(), FlatSettings(ExportOpts(p, "")))) == ParseExport(env, Export(p)) <==> OnePiece(p))
      && ParseExport(env, Emit(ExportFlags(), FlatSettings(ExportOpts(p, "/l")))) != ParseExport(env, LoggedExport(p))
  {
    var env := PlainEnv();
    PlainEnvOk();
    ExportsParse(p);
    FlatIsTheSame(env, Export(p), ExportOpts(p, ""));
    FlatIsTheSame(env, LoggedExport(p), ExportOpts(p, "/l"));
    assert ExportOpts(p, "").log == "" && ExportOpts(p, "/l").log == "/l" && ExportOpts(p, "").inputs == [p];
    PathsBack(p);
    hide *;
  }

  lemma AbsOne(p: string)
    requires Input(p)
    ensures AbsAll(PlainEnv(), [p]) == [p] && AllRooted([p])
  {
    hide AbsAll, NoControl;
    assert Abs(PlainEnv(), p) == p;
    var r := AbsAll(PlainEnv(), [p]);
    assert |r| == 1 && r[0] == Abs(PlainEnv(), [p][0]);
    hide Abs;
    assert [p][0] == p;
  }

  lemma SamePathsIs(env: Env, p: string)
    ensures SamePaths(env, [p]) <==> AbsAll(env, Pieces(p)) == AbsAll(env, [p])
    ensures AllOnePiece([p]) <==> OnePiece(p)
  {
    OneInput(p);
    assert [p][0] == p;
    hide AbsAll, Pieces, AllPieces, OnePiece;
  }

  lemma PathsBack(p: string)
    requires Input(p)
    ensures SamePaths(PlainEnv(), [p]) <==> OnePiece(p)
  {
    hide *;
    var env := PlainEnv();
    PlainEnvOk();
    AbsOne(p);
    OneInput(p);
    SamePathsIs(env, p);
    if OnePiece(p) {
      OnePieceIs(p);
    }
    if SamePaths(env, [p]) {
      SameBack(env, [p]);
    }
  }

  /** A comma and a no-break space: accepted, and another job when the command is read again; and the flat form
      of the one, and of any export with a log, is another job too. */
  lemma ExamplesDiffer()
    ensures var env := PlainEnv();
      && (forall p | p == "/a,b" || p == "/mail\U{00A0}" ::
            var job := ParseExport(env, Export(p));
            && job.Some? && ParseExport(env, job.value.args).Some? && ParseExport(env, job.value.args) != job
            && ParseExport(env, Emit(ExportFlags(), FlatSettings(ExportOpts(p, "")))) != job)
      && ParseExport(env, LoggedExport("/a")).Some?
      && ParseExport(env, Emit(ExportFlags(), FlatSettings(ExportOpts("/a", "/l")))) != ParseExport(env, LoggedExport("/a"))
  {
    forall p | p == "/a,b" || p == "/mail\U{00A0}" ensures Input(p) && !OnePiece(p) {
      assert "/a,b"[2] == ',' && "/mail\U{00A0}"[5] == '\U{00A0}';
    }
    assert Input("/a");
    hide *;
    forall p | p == "/a,b" || p == "/mail\U{00A0}"
      ensures var env := PlainEnv();
        var job := ParseExport(env, Export(p));
        && job.Some? && ParseExport(env, job.value.args).Some? && ParseExport(env, job.value.args) != job
        && ParseExport(env, Emit(ExportFlags(), FlatSettings(ExportOpts(p, "")))) != job
    {
      ReadAgain(p);
      FlatAgain(p);
    }
    FlatAgain("/a");
    ExportsParse("/a");
    Parsed(PlainEnv(), LoggedExport("/a"), ExportOpts("/a", "/l"));
  }
}
