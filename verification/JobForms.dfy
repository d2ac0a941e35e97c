/** Jobs as parseJob and flatJobArgs build them, argument by argument; the flat form against the "--" form; and
    the reindex and verify jobs. */
module JobForms {
  import opened Wrappers
  import opened Text
  import opened Flags
  import opened Jobs

  // ---- arguments, appended

  lemma {:induction false} EmitMore<F>(fs: FlagSet<F>, a: seq<Setting<F>>, s: Setting<F>)
    ensures Emit(fs, a + [s]) == Emit(fs, a) + EmitOne(fs, s)
  {
    hide EmitOne;
    if a == [] {
      assert [s][1..] == [];
      assert [] + [s] == [s];
    } else {
      EmitMore(fs, a[1..], s);
      assert (a + [s])[1..] == a[1..] + [s];
    }
  }

  lemma EmitValue(a: Settings, f: Flag, v: string)
    requires Takes(f)
    ensures Emit(ExportFlags(), a + [Setting(f, v)]) == Emit(ExportFlags(), a) + ["-" + NameOf(f), v]
  {
    EmitMore(ExportFlags(), a, Setting(f, v));
    LookupIs(f);
    hide Emit;
    hide Lookup;
    hide NameOf;
  }

  lemma EmitBool(a: Settings, f: Flag)
    requires !Takes(f)
    ensures Emit(ExportFlags(), a + [Setting(f, "true")]) == Emit(ExportFlags(), a) + ["-" + NameOf(f)]
    ensures Emit(ExportFlags(), a + [Setting(f, "false")]) == Emit(ExportFlags(), a) + ["-" + NameOf(f) + "=false"]
  {
    EmitMore(ExportFlags(), a, Setting(f, "true"));
    EmitMore(ExportFlags(), a, Setting(f, "false"));
    LookupIs(f);
    hide Emit;
    hide Lookup;
    hide NameOf;
    Joins("-", NameOf(f), "=", "false");
    assert "=" + "false" == "=false";
  }

  lemma Joins(a: string, b: string, c: string, d: string)
    ensures a + b + c + d == a + b + (c + d)
  {
  }

  method AddText(args: seq<string>, ghost a: Settings, f: Flag, v: string) returns (r: seq<string>)
    requires args == Emit(ExportFlags(), a) && Takes(f)
    ensures r == Emit(ExportFlags(), Str(a, f, v))
  {
    EmitValue(a, f, v);
    hide Emit;
    hide Takes;
    r := args;
    if v != "" {
      r := r + ["-" + NameOf(f), v];
    }
  }

  method AddOn(args: seq<string>, ghost a: Settings, f: Flag, b: bool) returns (r: seq<string>)
    requires args == Emit(ExportFlags(), a) && !Takes(f)
    ensures r == Emit(ExportFlags(), On(a, f, b))
  {
    EmitBool(a, f);
    hide Emit;
    hide Takes;
    r := args;
    if b {
      r := r + ["-" + NameOf(f)];
    }
  }

  method AddOff(args: seq<string>, ghost a: Settings, f: Flag, b: bool) returns (r: seq<string>)
    requires args == Emit(ExportFlags(), a) && !Takes(f)
    ensures r == Emit(ExportFlags(), Off(a, f, b))
  {
    EmitBool(a, f);
    hide Emit;
    hide Takes;
    r := args;
    if !b {
      r := r + ["-" + NameOf(f) + "=false"];
    }
  }

  method AddEach(args: seq<string>, ghost a: Settings, f: Flag, vs: seq<string>) returns (r: seq<string>)
    requires args == Emit(ExportFlags(), a) && Takes(f)
    ensures r == Emit(ExportFlags(), Each(a, f, vs))
  {
    hide Emit;
    hide Takes;
    r := args;
    for i := 0 to |vs|
      invariant r == Emit(ExportFlags(), Each(a, f, vs[..i]))
    {
      assert vs[..i + 1][..i] == vs[..i];
      EmitValue(Each(a, f, vs[..i]), f, vs[i]);
      r := r + ["-" + NameOf(f), vs[i]];
    }
    assert vs[..|vs|] == vs;
  }

  method AddSources(args: seq<string>, ghost a: Settings, o: Opts) returns (r: seq<string>)
    requires args == Emit(ExportFlags(), a)
    ensures r == Emit(ExportFlags(), Sources(o, a))
  {
    hide Emit;
    hide Str;
    hide On;
    hide Each;
    r := AddText(args, a, Since, o.since);
    ghost var a1 := Str(a, Since, o.since);
    r := AddOn(r, a1, Auto, Auto in o.on);
    ghost var a2 := On(a1, Auto, Auto in o.on);
    r := AddEach(r, a2, Input, o.inputs);
    ghost var a3 := Each(a2, Input, o.inputs);
    r := AddOn(r, a3, CopyFirst, CopyFirst in o.on);
    r := AddEach(r, On(a3, CopyFirst, CopyFirst in o.on), FollowLinks, o.follow);
  }

  method AddOutlook(args: seq<string>, ghost a: Settings, o: Opts) returns (r: seq<string>)
    requires args == Emit(ExportFlags(), a)
    ensures r == Emit(ExportFlags(), WithOutlook(o, a))
  {
    r := args;
    if Outlook in o.on {
      EmitBool(a, Outlook);
      EmitValue(a + [Setting(Outlook, "true")], Wait, o.wait);
      OutlookNames();
      hide Emit, ExportFlags, NameOf, Takes;
      r := r + ["-outlook"] + ["-outlook-sync-wait", o.wait];
    }
  }

  lemma OutlookNames()
    ensures "-" + NameOf(Outlook) == "-outlook" && "-" + NameOf(Wait) == "-outlook-sync-wait"
  {
  }

  method AddChoices(args: seq<string>, ghost a: Settings, o: Opts) returns (r: seq<string>)
    requires args == Emit(ExportFlags(), a)
    ensures r == Emit(ExportFlags(), Choices(o, a))
  {
    hide Emit;
    hide Str;
    hide On;
    hide Off;
    hide WithOutlook;
    r := AddOutlook(args, a, o);
    ghost var a1 := WithOutlook(o, a);
    r := AddOff(r, a1, Index, Index in o.on);
    ghost var a2 := Off(a1, Index, Index in o.on);
    r := AddOff(r, a2, Pages, Pages in o.on);
    ghost var a3 := Off(a2, Pages, Pages in o.on);
    r := AddOn(r, a3, Raw, Raw in o.on);
    r := AddText(r, On(a3, Raw, Raw in o.on), Manifest, o.manifest);
  }

  /** The part the two forms share. */
  method AddBody(args: seq<string>, ghost a: Settings, o: Opts) returns (r: seq<string>)
    requires args == Emit(ExportFlags(), a)
    ensures r == Emit(ExportFlags(), Body(o, a))
  {
    hide Emit;
    hide Sources;
    hide Choices;
    r := AddSources(args, a, o);
    r := AddChoices(r, Sources(o, a), o);
  }

  method AddSync(args: seq<string>, ghost a: Settings, o: Opts) returns (r: seq<string>)
    requires args == Emit(ExportFlags(), a)
    ensures r == Emit(ExportFlags(), Sync(o, a))
  {
    hide Emit;
    hide Str;
    r := args;
    if Presync in o.on {
      EmitBool(a, Presync);
      assert "-" + NameOf(Presync) == "-thunderbird-sync";
      r := AddText(r + ["-thunderbird-sync"], a + [Setting(Presync, "true")], Profile, o.profile);
    }
  }

  /** The arguments parseJob appends for an export it accepted, from its options made canonical. */
  method JobArgs(c: Opts) returns (args: seq<string>)
    ensures args == JobOf(c).args
  {
    hide Emit;
    hide Body;
    hide Sync;
    hide Str;
    EmitValue([], Out, c.out);
    EmitValue([] + [Setting(Out, c.out)], Mode, c.mode);
    EmitBool([] + [Setting(Out, c.out)] + [Setting(Mode, c.mode)], Unattended);
    NoArgs();
    assert "-" + NameOf(Out) == "-out" && "-" + NameOf(Mode) == "-mode" && "-" + NameOf(Unattended) == "-unattended";
    args := ["-out", c.out, "-mode", c.mode, "-unattended"];
    assert args == [] + ["-out", c.out] + ["-mode", c.mode] + ["-unattended"];
    args := AddBody(args, JobHead(c), c);
    args := AddText(args, Body(c, JobHead(c)), LogFile, c.log);
    args := AddSync(args, Str(Body(c, JobHead(c)), LogFile, c.log), c);
  }

  /** parseJob, for an export. */
  method ExportJob(env: Env, args: seq<string>) returns (r: Option<Job>)
    ensures r == ParseExport(env, args)
  {
    hide ParseFlags;
    hide Accepts;
    hide Canonical;
    hide SettingsOf;
    var o := ParseFlags(env, args);
    if o.None? || !Accepts(env, o.value) {
      return None;
    }
    var c := Canonical(env, o.value);
    var out := JobArgs(c);
    return Some(Job("", out, c.out, Presync in c.on));
  }

  lemma NoArgs()
    ensures Emit(ExportFlags(), []) == []
  {
  }

  /** flatJobArgs. */
  method FlatJobArgs(o: Opts, positional: seq<string>) returns (args: seq<string>)
    ensures args == Emit(ExportFlags(), FlatSettings(o.(inputs := o.inputs + positional)))
  {
    hide Emit;
    hide Body;
    hide Sync;
    hide Str;
    hide On;
    var o' := o.(inputs := o.inputs + positional);
    NoArgs();
    args := AddText([], [], Out, o'.out);
    ghost var a1 := Str([], Out, o'.out);
    EmitValue(a1, Mode, o'.mode);
    assert "-" + NameOf(Mode) == "-mode";
    args := args + ["-mode", o'.mode];
    ghost var a2 := a1 + [Setting(Mode, o'.mode)];
    args := AddBody(args, a2, o');
    ghost var a3 := Body(o', a2);
    args := AddOn(args, a3, EnableOffline, EnableOffline in o'.on);
    ghost var a4 := On(a3, EnableOffline, EnableOffline in o'.on);
    args := AddOn(args, a4, SyncWait, SyncWait in o'.on);
    args := AddSync(args, On(a4, SyncWait, SyncWait in o'.on), o');
  }

  // ---- the flat form

  lemma {:induction false} FollowsArePieces(env: Env, o: Opts, settings: Settings)
    requires AllOnePiece(o.follow) && AllOnePiece(o.inputs)
    ensures var r := Fold(env, o, settings);
      r.Some? ==> AllOnePiece(r.value.follow) && AllOnePiece(r.value.inputs)
  {
    if settings != [] {
      var front, last := settings[..|settings| - 1], settings[|settings| - 1];
      FollowsArePieces(env, o, front);
      PiecesAre(last.value);
      hide Pieces;
      hide OnePiece;
    }
  }

  lemma FlatHeadFolds(env: Env, o: Opts)
    requires o.out != ""
    ensures Fold(env, Defaults(), Str([], Out, o.out) + [Setting(Mode, o.mode)]) == Some(Defaults().(out := o.out, mode := o.mode))
  {
    assert Fold(env, Defaults(), []) == Some(Defaults());
    hide Fold;
    FoldText(env, Defaults(), [], Defaults(), Out, o.out);
    FoldText(env, Defaults(), [] + [Setting(Out, o.out)], Defaults().(out := o.out), Mode, o.mode);
  }

  /** What the flat form keeps of the options: neither the log nor what no job carries, its lists split again. */
  function FlatKept(o: Opts): Opts {
    o.(log := "", wait := if Outlook in o.on then o.wait else DEFAULT_WAIT, on := o.on - {Unattended, List},
       profile := if Presync in o.on then o.profile else "",
       inputs := AllPieces(o.inputs), follow := AllPieces(o.follow))
  }

  lemma FlatFinal(o: Opts)
    requires AllSwitches(o) && EnableOffline !in o.on && SyncWait !in o.on
    ensures AllSet(Defaults().(out := o.out, mode := o.mode), o) == FlatKept(o)
  {
    var c := o.(on := o.on - {List});
    SwitchesBack({Index, Pages}, c);
    assert c.on - {Unattended} + ({Index, Pages} - {Index, Pages}) == o.on - {Unattended, List};
    SameAs(o, c);
    hide As;
    hide AllPieces;
  }

  lemma SameAs(o: Opts, c: Opts)
    requires c == o.(on := o.on - {List})
    ensures forall on, f :: f != List ==> As(on, f, o) == As(on, f, c)
  {
  }

  lemma FlatFolds(env: Env, o: Opts)
    requires EnvOk(env) && AllSwitches(o) && WaitParsed(env, o) && Accepts(env, o)
    ensures Fold(env, Defaults(), FlatSettings(o)) == Some(FlatKept(o))
  {
    FlatHeadFolds(env, o);
    FlatFinal(o);
    var first := Str([], Out, o.out) + [Setting(Mode, o.mode)];
    FoldRest(env, first, Defaults().(out := o.out, mode := o.mode), o);
    hide EnvOk;
    hide Fold;
    hide AllSet;
    hide Str;
    hide Body;
    hide Sync;
  }

  lemma FlatFlags(env: Env, o: Opts)
    requires EnvOk(env) && AllSwitches(o) && WaitParsed(env, o) && Accepts(env, o)
    ensures ParseFlags(env, Emit(ExportFlags(), FlatSettings(o))) == Some(FlatKept(o))
  {
    FlatFolds(env, o);
    FlagsDefined(FlatSettings(o));
    ScanEmit(ExportFlags(), FlatSettings(o));
    hide EnvOk;
    hide Accepts;
    hide Fold;
    hide Scan;
    hide Emit;
    hide FlatSettings;
    assert FlatKept(o).inputs + [] == FlatKept(o).inputs;
    hide FlatKept;
  }

  lemma Parsed(env: Env, args: seq<string>, o: Opts)
    requires ParseFlags(env, args) == Some(o)
    ensures ParseExport(env, args) == if Accepts(env, o) then Some(JobOf(Canonical(env, o))) else None
  {
    hide ParseFlags, Accepts, Canonical, JobOf;
  }

  /** The inputs are the same paths when each is split and trimmed again. */
  predicate SamePaths(env: Env, inputs: seq<string>) { AbsAll(env, AllPieces(inputs)) == AbsAll(env, inputs) }

  lemma {:induction false} SplitKeeps(s: string, sep: char)
    ensures forall i, c :: 0 <= i < |Split(s, sep)| && c in Split(s, sep)[i] ==> c in s
  {
    if s != "" {
      SplitKeeps(s[1..], sep);
      assert s == [s[0]] + s[1..];
    }
  }

  lemma {:induction false} TrimmedFrom(parts: seq<string>, p: string)
    requires p in Trimmed(parts)
    ensures exists i :: 0 <= i < |parts| && TrimSpace(parts[i]) == p
    decreases |parts|
  {
    var front := parts[..|parts| - 1];
    if p in Trimmed(front) {
      TrimmedFrom(front, p);
      var i :| 0 <= i < |front| && TrimSpace(front[i]) == p;
      assert parts[i] == front[i];
    }
  }

  lemma PieceNoControl(v: string, p: string)
    requires NoControl(v) && p in Pieces(v)
    ensures NoControl(p)
  {
    TrimmedFrom(Split(v, ','), p);
    var i :| 0 <= i < |Split(v, ',')| && TrimSpace(Split(v, ',')[i]) == p;
    SplitKeeps(v, ',');
    TrimKeeps(Split(v, ',')[i]);
    hide Split, TrimSpace;
    forall k | 0 <= k < |p| ensures p[k] >= 32 as char && p[k] != 127 as char {
      assert p[k] in p && p[k] in v;
      var m :| 0 <= m < |v| && v[m] == p[k];
    }
  }

  lemma {:induction false} PiecesNoControl(vs: seq<string>)
    requires AllNoControl(vs)
    ensures AllNoControl(AllPieces(vs))
  {
    if vs != [] {
      var front, last := vs[..|vs| - 1], vs[|vs| - 1];
      PiecesNoControl(front);
      forall p | p in Pieces(last) ensures NoControl(p) {
        PieceNoControl(last, p);
      }
      hide Pieces, NoControl;
      LastPieces(vs);
    }
  }

  /** The same paths are the same inputs. */
  lemma SameIds(env: Env, a: seq<string>, b: seq<string>, i: nat)
    requires EnvOk(env) && AbsAll(env, a) == AbsAll(env, b) && i < |b|
    ensures i < |a| && env.id(a[i]) == env.id(b[i])
  {
    assert |AbsAll(env, a)| == |a| && |AbsAll(env, b)| == |b|;
    AbsFacts(env, a[i]);
    AbsFacts(env, b[i]);
    hide EnvOk, Abs;
    assert AbsAll(env, a)[i] == Abs(env, a[i]) && AbsAll(env, b)[i] == Abs(env, b[i]);
  }

  lemma FollowStays(env: Env, follow: seq<string>, a: seq<string>, b: seq<string>)
    requires EnvOk(env) && FollowOk(env, follow, b) && AbsAll(env, a) == AbsAll(env, b)
    ensures FollowOk(env, follow, a)
  {
    forall i | 0 <= i < |b| ensures i < |a| && env.id(a[i]) == env.id(b[i]) {
      SameIds(env, a, b, i);
    }
    hide EnvOk, AbsAll;
    forall i | 0 <= i < |follow| ensures exists j :: 0 <= j < |a| && env.id(a[j]) == env.id(follow[i]) {
      var f := follow[i];
      var j :| 0 <= j < |b| && env.id(b[j]) == env.id(f);
      assert 0 <= j < |a| && env.id(a[j]) == env.id(f);
    }
  }

  lemma FlatAccepted(env: Env, o: Opts)
    requires EnvOk(env) && Accepts(env, o) && SamePaths(env, o.inputs) && AllPieces(o.follow) == o.follow
    ensures Accepts(env, FlatKept(o))
  {
    NoControlEmpty();
    PiecesNoControl(o.inputs);
    FollowStays(env, o.follow, AllPieces(o.inputs), o.inputs);
    hide EnvOk, NoControl, AllNoControl, FollowOk, AbsAll, AllPieces;
  }

  lemma FlatCanonical(env: Env, o: Opts)
    requires AllPieces(o.follow) == o.follow
    ensures Canonical(env, FlatKept(o)) == Canonical(env, o).(log := "", inputs := AbsAll(env, AllPieces(o.inputs)))
  {
    hide AbsAll, JobOn, AllPieces, Abs;
    SameJobOn(env, o.on);
  }

  lemma SameJobOn(env: Env, on: set<Flag>)
    ensures JobOn(on - {Unattended, List}) == JobOn(on) && Abs(env, "") == ""
  {
  }

  /** The flat form of an export parses to the job of its "--" form exactly when no log is asked for and every
      input is the same path when it is split and trimmed again: a positional is taken as it is in the one
      form and as a list in the other, and the flat form's log is not the job's. */
  lemma FlatIsTheSame(env: Env, args: seq<string>, o: Opts)
    requires EnvOk(env) && ParseFlags(env, args) == Some(o) && Accepts(env, o)
    ensures ParseExport(env, Emit(ExportFlags(), FlatSettings(o))) == ParseExport(env, args)
      <==> o.log == "" && SamePaths(env, o.inputs)
  {
    var flat := Emit(ExportFlags(), FlatSettings(o));
    ParsedOpts(env, args, o);
    FollowPieces(env, args, o);
    FlatFlags(env, o);
    Parsed(env, args, o);
    Parsed(env, flat, FlatKept(o));
    FlatCanonical(env, o);
    var c, f := Canonical(env, o), Canonical(env, FlatKept(o));
    LogAndInputs(env, o);
    if o.log == "" && SamePaths(env, o.inputs) {
      FlatAccepted(env, o);
    }
    hide ParseExport, ParseFlags, Accepts, Canonical, FlatKept, AbsAll, AllPieces, EnvOk;
    if Accepts(env, FlatKept(o)) && JobOf(f) == JobOf(c) {
      SameArgs(f, c);
    }
    hide JobOf;
    assert c.(log := c.log, inputs := c.inputs) == c;
  }

  lemma LogAndInputs(env: Env, o: Opts)
    requires EnvOk(env)
    ensures Canonical(env, o).inputs == AbsAll(env, o.inputs) && (Canonical(env, o).log == "" <==> o.log == "")
  {
    AbsFacts(env, o.log);
    hide EnvOk, AbsAll, JobOn;
  }

  lemma FollowPieces(env: Env, args: seq<string>, o: Opts)
    requires ParseFlags(env, args) == Some(o)
    ensures AllPieces(o.follow) == o.follow
  {
    FollowsArePieces(env, Defaults(), Scan(ExportFlags(), args).settings);
    hide Fold;
    hide Scan;
    hide OnePiece;
    WholePieces(o.follow);
    hide AllPieces;
  }

  /** With plain positionals the two forms differ by the log alone. */
  lemma FlatOfPlain(env: Env, args: seq<string>, o: Opts)
    requires EnvOk(env) && ParseFlags(env, args) == Some(o) && Accepts(env, o)
    requires AllOnePiece(Scan(ExportFlags(), args).rest)
    ensures ParseExport(env, Emit(ExportFlags(), FlatSettings(o))) == ParseExport(env, args) <==> o.log == ""
  {
    ParsedPieces(env, args, o);
    WholePieces(o.inputs);
    FlatIsTheSame(env, args, o);
    hide ParseExport, ParseFlags, Accepts, FlatSettings, AllPieces;
  }

  lemma ParsedPieces(env: Env, args: seq<string>, o: Opts)
    requires ParseFlags(env, args) == Some(o) && AllOnePiece(Scan(ExportFlags(), args).rest)
    ensures AllOnePiece(o.inputs) && AllOnePiece(o.follow)
  {
    FollowsArePieces(env, Defaults(), Scan(ExportFlags(), args).settings);
    hide Fold;
    hide Scan;
    hide OnePiece;
  }

  // ---- reindex and verify

  datatype VerbFlag = VerbOut | VerbLog | VerbUnattended | Rebuild | Json | Record | Full

  datatype Verb = Reindex | Verify

  function VerbName(v: Verb): string { if v == Reindex then "reindex" else "verify" }

  function VerbFlagName(f: VerbFlag): string {
    match f
    case VerbOut => "out"
    case VerbLog => "log"
    case VerbUnattended => "unattended"
    case Rebuild => "rebuild"
    case Json => "json"
    case Record => "record"
    case Full => "full"
  }

  function VerbLookup(v: Verb, name: string): Option<Def<VerbFlag>> {
    if name == "out" then Some(Def(VerbOut, false))
    else if name == "log" then Some(Def(VerbLog, false))
    else if name == "unattended" then Some(Def(VerbUnattended, true))
    else if v == Reindex && name == "rebuild" then Some(Def(Rebuild, true))
    else if v == Verify && name == "json" then Some(Def(Json, true))
    else if v == Verify && name == "record" then Some(Def(Record, true))
    else if v == Verify && name == "full" then Some(Def(Full, true))
    else None
  }

  function VerbFlags(v: Verb): FlagSet<VerbFlag> { FlagSet(name => VerbLookup(v, name), VerbFlagName) }

  datatype VerbOpts = VerbOpts(out: string, log: string, on: set<VerbFlag>)

  function VerbApply(o: VerbOpts, s: Setting<VerbFlag>): Option<VerbOpts> {
    if s.flag == VerbOut then Some(o.(out := s.value))
    else if s.flag == VerbLog then Some(o.(log := s.value))
    else if ParseBool(s.value).None? then None
    else Some(o.(on := if ParseBool(s.value).value then o.on + {s.flag} else o.on - {s.flag}))
  }

  function VerbFold(o: VerbOpts, settings: seq<Setting<VerbFlag>>): Option<VerbOpts> {
    if settings == [] then Some(o)
    else
      var before := VerbFold(o, settings[..|settings| - 1]);
      if before.None? then None else VerbApply(before.value, settings[|settings| - 1])
  }

  type VerbSettingList = seq<Setting<VerbFlag>>

  function AddFlag(a: VerbSettingList, f: VerbFlag, b: bool): VerbSettingList {
    if b then a + [Setting(f, "true")] else a
  }

  /** A job's settings: what is recorded and printed for a verify, the log for both. */
  function VerbSettings(v: Verb, o: VerbOpts): VerbSettingList {
    var first := [] + [Setting(VerbOut, o.out)] + [Setting(VerbUnattended, "true")];
    var all := AddFlag(AddFlag(first, Record, v == Verify && Record in o.on), Json, v == Verify && Json in o.on);
    if o.log != "" then all + [Setting(VerbLog, o.log)] else all
  }

  function VerbJob(v: Verb, o: VerbOpts): Job {
    Job(VerbName(v), Emit(VerbFlags(v), VerbSettings(v, o)), o.out, false)
  }

  /** parseJob, for a reindex or a verify; arguments after the flags are not looked at. */
  function ParseVerb(env: Env, v: Verb, args: seq<string>): Option<Job> {
    match Scan(VerbFlags(v), args)
    case Refused => None
    case Scanned(settings, _) =>
      match VerbFold(VerbOpts("", "", {}), settings)
      case None => None
      case Some(o) =>
        if o.out == "" || (v == Verify && Full in o.on) || !NoControl(o.out) || !NoControl(o.log) then None
        else Some(VerbJob(v, o.(out := Abs(env, o.out), log := Abs(env, o.log))))
  }

  /** The flags of each verb, of which two take a value. */
  lemma VerbFlagsAre(v: Verb, f: VerbFlag)
    ensures var of := f.VerbOut? || f.VerbLog? || f.VerbUnattended? || (if v == Reindex then f.Rebuild? else !f.Rebuild?);
      VerbLookup(v, VerbFlagName(f)) == if of then Some(Def(f, !f.VerbOut? && !f.VerbLog?)) else None
  {
  }

  lemma VerbDefined(v: Verb, o: VerbOpts)
    ensures AllDefined(VerbFlags(v), VerbSettings(v, o))
  {
  }

  lemma VerbFoldMore(o: VerbOpts, a: VerbSettingList, s: Setting<VerbFlag>)
    ensures VerbFold(o, a + [s]) == if VerbFold(o, a).None? then None else VerbApply(VerbFold(o, a).value, s)
  {
    assert (a + [s])[..|a|] == a;
    hide VerbApply;
  }

  lemma VerbFoldFlag(o: VerbOpts, a: VerbSettingList, o': VerbOpts, f: VerbFlag, b: bool)
    requires VerbFold(o, a) == Some(o') && f != VerbOut && f != VerbLog
    ensures VerbFold(o, AddFlag(a, f, b)) == Some(o'.(on := if b then o'.on + {f} else o'.on))
  {
    if b {
      VerbFoldMore(o, a, Setting(f, "true"));
      hide VerbFold;
    }
  }

  lemma VerbFoldText(o: VerbOpts, a: VerbSettingList, o': VerbOpts, v: string)
    requires VerbFold(o, a) == Some(o')
    ensures VerbFold(o, a + [Setting(VerbOut, v)]) == Some(o'.(out := v))
    ensures VerbFold(o, a + [Setting(VerbLog, v)]) == Some(o'.(log := v))
  {
    VerbFoldMore(o, a, Setting(VerbOut, v));
    VerbFoldMore(o, a, Setting(VerbLog, v));
    hide VerbFold;
  }

  /** The options a job's settings set. */
  function VerbKept(v: Verb, o: VerbOpts): VerbOpts {
    VerbOpts(o.out, o.log,
             {VerbUnattended}
             + (if v == Verify && Record in o.on then {Record} else {})
             + (if v == Verify && Json in o.on then {Json} else {}))
  }

  function VerbHead(o: VerbOpts): VerbSettingList { [] + [Setting(VerbOut, o.out)] + [Setting(VerbUnattended, "true")] }

  lemma VerbHeadFolds(o: VerbOpts)
    ensures VerbFold(VerbOpts("", "", {}), VerbHead(o)) == Some(VerbOpts(o.out, "", {VerbUnattended}))
  {
    var o0 := VerbOpts("", "", {});
    assert VerbFold(o0, []) == Some(o0);
    hide VerbFold;
    VerbFoldText(o0, [], o0, o.out);
    var a1, o1 := [] + [Setting(VerbOut, o.out)], o0.(out := o.out);
    VerbFoldFlag(o0, a1, o1, VerbUnattended, true);
    assert {} + {VerbUnattended} == {VerbUnattended};
  }

  lemma VerbSettingsAre(v: Verb, o: VerbOpts)
    ensures var all := AddFlag(AddFlag(VerbHead(o), Record, v == Verify && Record in o.on), Json, v == Verify && Json in o.on);
      VerbSettings(v, o) == if o.log != "" then all + [Setting(VerbLog, o.log)] else all
  {
    hide AddFlag;
  }

  lemma VerbFolds(v: Verb, o: VerbOpts)
    ensures VerbFold(VerbOpts("", "", {}), VerbSettings(v, o)) == Some(VerbKept(v, o))
  {
    var record, json := v == Verify && Record in o.on, v == Verify && Json in o.on;
    var o0, o2 := VerbOpts("", "", {}), VerbOpts(o.out, "", {VerbUnattended});
    var o3 := o2.(on := if record then o2.on + {Record} else o2.on);
    var o4 := o3.(on := if json then o3.on + {Json} else o3.on);
    assert o4.(log := o.log) == VerbKept(v, o);
    hide *;
    VerbHeadFolds(o);
    VerbSettingsAre(v, o);
    VerbFoldFlag(o0, VerbHead(o), o2, Record, record);
    VerbFoldFlag(o0, AddFlag(VerbHead(o), Record, record), o3, Json, json);
    VerbFoldText(o0, AddFlag(AddFlag(VerbHead(o), Record, record), Json, json), o4, o.log);
  }

  /** Only what a job keeps makes its settings. */
  lemma KeptSettings(v: Verb, o: VerbOpts)
    ensures VerbSettings(v, VerbKept(v, o)) == VerbSettings(v, o) && Full !in VerbKept(v, o).on
  {
    hide AddFlag;
  }

  /** Reindex and verify jobs are a fixed point of parsing, whatever their paths. */
  lemma VerbReparses(env: Env, v: Verb, args: seq<string>)
    requires EnvOk(env) && ParseVerb(env, v, args).Some?
    ensures ParseVerb(env, v, ParseVerb(env, v, args).value.args) == ParseVerb(env, v, args)
  {
    var settings := Scan(VerbFlags(v), args).settings;
    var o := VerbFold(VerbOpts("", "", {}), settings).value;
    var c := o.(out := Abs(env, o.out), log := Abs(env, o.log));
    AbsFacts(env, o.out);
    AbsFacts(env, o.log);
    NoControlEmpty();
    VerbDefined(v, c);
    ScanEmit(VerbFlags(v), VerbSettings(v, c));
    VerbFolds(v, c);
    KeptSettings(v, c);
    hide VerbSettings;
    hide EnvOk;
    hide VerbFold;
    hide Scan;
    hide Emit;
    hide NoControl;
    hide Abs;
    hide VerbFlags;
    hide VerbName;
  }

  /** A reindex or verify that parses is a job exactly when it has a folder, no value with a control character and
      asks for no full verification; and its command asks for what was asked for, with absolute paths, run unattended,
      of which a verify keeps whether to record and print, and a rebuild is not kept. */
  lemma VerbMeans(env: Env, v: Verb, args: seq<string>, o: VerbOpts)
    requires EnvOk(env) && ReadsAs(v, args, o)
    ensures ParseVerb(env, v, args).Some? <==>
      && o.out != "" && !(v == Verify && Full in o.on)
      && (forall c :: c in o.out ==> !IsControl(c)) && forall c :: c in o.log ==> !IsControl(c)
    ensures ParseVerb(env, v, args).Some? ==>
              var j := ParseVerb(env, v, args).value;
              && j.verb == (if v == Reindex then "reindex" else "verify") && j.out == env.abs(o.out) && !j.presync
              && ReadsAs(v, j.args, VerbKept(v, VerbOpts(env.abs(o.out), if o.log == "" then "" else env.abs(o.log), o.on)))
    ensures forall f :: f in VerbKept(v, o).on <==>
              f == VerbUnattended || (v == Verify && (f == Record || f == Json) && f in o.on)
  {
    var c := o.(out := Abs(env, o.out), log := Abs(env, o.log));
    assert c == VerbOpts(if o.out == "" then "" else env.abs(o.out), if o.log == "" then "" else env.abs(o.log), o.on);
    VerbKeeps(v, o);
    hide *;
    NoControlIs(o.out);
    NoControlIs(o.log);
    VerbParses(env, v, args, o);
    VerbRead(v, c);
  }

  lemma VerbKeeps(v: Verb, o: VerbOpts)
    ensures forall f :: f in VerbKept(v, o).on <==>
              f == VerbUnattended || (v == Verify && (f == Record || f == Json) && f in o.on)
  {
  }

  lemma VerbParses(env: Env, v: Verb, args: seq<string>, o: VerbOpts)
    requires ReadsAs(v, args, o)
    ensures ParseVerb(env, v, args)
      == if o.out == "" || (v == Verify && Full in o.on) || !NoControl(o.out) || !NoControl(o.log) then None
         else Some(VerbJob(v, o.(out := Abs(env, o.out), log := Abs(env, o.log))))
  {
    hide VerbFold, Scan, VerbFlags, VerbJob, NoControl, Abs;
  }

  lemma VerbRead(v: Verb, c: VerbOpts)
    ensures var j := VerbJob(v, c);
      j.verb == (if v == Reindex then "reindex" else "verify") && j.out == c.out && !j.presync && ReadsAs(v, j.args, VerbKept(v, c))
  {
    VerbDefined(v, c);
    ScanEmit(VerbFlags(v), VerbSettings(v, c));
    VerbFolds(v, c);
    hide VerbSettings, VerbFold, Scan, Emit, VerbFlags, VerbKept;
  }

  /** The arguments read as these options. */
  predicate ReadsAs(v: Verb, args: seq<string>, o: VerbOpts) {
    var r := Scan(VerbFlags(v), args);
    r.Scanned? && VerbFold(VerbOpts("", "", {}), r.settings) == Some(o)
  }

  // ---- any job

  const KNOWN_VERBS: seq<string> := [
    "serve", "search", "reindex", "schedule", "graph", "status", "verify", "extract", "change-password", "new-recovery-key",
    "forget-key", "forget-archive", "repair-record", "encrypt", "restore-key-file", "decrypt"]

  /** parseJob, but for the graph verb, which this model leaves out. */
  function ParseJob(env: Env, args: seq<string>): Option<Job>
    requires args != [] ==> args[0] != "graph"
  {
    if args == [] || args[0] !in KNOWN_VERBS then ParseExport(env, args)
    else if args[0] == "reindex" then ParseVerb(env, Reindex, args[1..])
    else if args[0] == "verify" then ParseVerb(env, Verify, args[1..])
    else None
  }

  /** command: the arguments the scheduled program is given. */
  function Command(j: Job): seq<string> { if j.verb == "" then j.args else [j.verb] + j.args }

  /** What a job was parsed from, for the exports whose lists a comma or an edge space would split. */
  ghost predicate ListsPlain(env: Env, args: seq<string>) {
    var o := ParseFlags(env, args);
    o.Some? ==> AllOnePiece(Canonical(env, o.value).inputs) && AllOnePiece(Canonical(env, o.value).follow)
  }

  lemma OutIsNoVerb()
    ensures "-out" !in KNOWN_VERBS
  {
    forall i | 0 <= i < |KNOWN_VERBS| ensures KNOWN_VERBS[i] != "-out" {
      assert KNOWN_VERBS[i][0] != '-';
    }
  }

  lemma ExportCommand(env: Env, args: seq<string>)
    requires ParseExport(env, args).Some?
    ensures var j := ParseExport(env, args).value;
      Command(j) == j.args && j.args != [] && j.args[0] == "-out" && j.args[0] !in KNOWN_VERBS
  {
    var c := Canonical(env, ParseFlags(env, args).value);
    assert ParseExport(env, args) == Some(JobOf(c));
    hide ParseExport;
    hide ParseFlags;
    hide Accepts;
    hide Canonical;
    hide KNOWN_VERBS;
    CommandHead(c);
    OutIsNoVerb();
    hide JobOf;
  }

  lemma CommandHead(c: Opts)
    ensures JobOf(c).args != [] && JobOf(c).args[0] == "-out" && JobOf(c).verb == ""
  {
    var s := SettingsOf(c);
    StartsWithOut(c);
    assert s[0] == Setting(Out, c.out);
    LookupIs(Out);
    assert "-" + NameOf(Out) == "-out";
    hide Lookup;
    hide SettingsOf;
  }

  lemma StartsWithOut(c: Opts)
    ensures SettingsOf(c) != [] && SettingsOf(c)[0] == Setting(Out, c.out)
  {
    var head := JobHead(c);
    hide JobHead;
    EachKeeps(On(Str(head, Since, c.since), Auto, Auto in c.on), Input, c.inputs);
    var a := On(Each(On(Str(head, Since, c.since), Auto, Auto in c.on), Input, c.inputs), CopyFirst, CopyFirst in c.on);
    EachKeeps(a, FollowLinks, c.follow);
    hide Each;
    HeadFirst(c);
  }

  lemma HeadFirst(c: Opts)
    ensures |JobHead(c)| == 3 && JobHead(c)[0] == Setting(Out, c.out)
  {
  }

  lemma {:induction false} EachKeeps(a: Settings, f: Flag, vs: seq<string>)
    ensures |Each(a, f, vs)| >= |a| && (a != [] ==> Each(a, f, vs)[0] == a[0])
  {
    if vs != [] {
      EachKeeps(a, f, vs[..|vs| - 1]);
    }
  }

  lemma VerbIsKnown(env: Env, v: Verb, args: seq<string>)
    requires ParseVerb(env, v, args).Some?
    ensures ParseVerb(env, v, args).value.verb == VerbName(v) && VerbName(v) in KNOWN_VERBS
  {
    assert KNOWN_VERBS[2] == "reindex" && KNOWN_VERBS[6] == "verify";
    hide Scan;
    hide VerbFold;
    hide NoControl;
    hide Emit;
  }

  /** Canonicalisation is a fixed point: whenever a job is accepted, its command parses to the same job; for an
      export, where its lists are plain. */
  lemma JobReparses(env: Env, args: seq<string>)
    requires EnvOk(env) && (args != [] ==> args[0] != "graph") && ParseJob(env, args).Some?
    requires args == [] || args[0] !in KNOWN_VERBS ==> ListsPlain(env, args)
    ensures var j := ParseJob(env, args).value;
      (Command(j) != [] ==> Command(j)[0] != "graph") && ParseJob(env, Command(j)) == Some(j)
  {
    hide ParseVerb;
    hide VerbName;
    if args == [] || args[0] !in KNOWN_VERBS {
      ExportCommand(env, args);
      var o := ParseFlags(env, args).value;
      CommandReparses(env, args, o);
      hide ParseExport;
      hide ParseFlags;
      hide EnvOk;
    } else {
      var v := if args[0] == "reindex" then Reindex else Verify;
      VerbReparses(env, v, args[1..]);
      VerbIsKnown(env, v, args[1..]);
      VerbNames();
      var j := ParseJob(env, args).value;
      assert Command(j)[1..] == j.args;
      hide EnvOk;
      hide ParseExport;
    }
  }

  lemma VerbNames()
    ensures VerbName(Reindex) == "reindex" && VerbName(Verify) == "verify"
  {
  }
}
