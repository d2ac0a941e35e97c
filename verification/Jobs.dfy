/** Scheduled jobs in canonical form: the export branch of parseJob, the command a job prints, and the flat
    form of an export. What the platform decides is a parameter. */
module Jobs {
  import opened Wrappers
  import opened Flags

  const DEFAULT_WAIT := "5m0s"

  /** The working directory's view of paths, the identity of an input, and the other parsers a job meets. */
  datatype Env = Env(
    abs: string -> string, id: string -> string, sinceOk: string -> bool,
    wait: string -> Option<string>, lower: string -> string, outlookOk: bool, presyncOk: bool)

  /** The options of an export; `on` are the bool flags that are true. */
  datatype Opts = Opts(
    out: string, mode: string, since: string, manifest: string, log: string, profile: string, wait: string,
    on: set<Flag>, inputs: seq<string>, follow: seq<string>)

  datatype Job = Job(verb: string, args: seq<string>, out: string, presync: bool)

  function Defaults(): Opts {
    Opts("", "incremental", "", "", "", "", DEFAULT_WAIT, {Index, Pages}, [], [])
  }

  function ParseBool(v: string): Option<bool> {
    if v in ["1", "t", "T", "TRUE", "true", "True"] then Some(true)
    else if v in ["0", "f", "F", "FALSE", "false", "False"] then Some(false)
    else None
  }

  /** The words a bool flag takes, told by their first character. */
  lemma BoolWords(v: string)
    ensures ParseBool(v).Some? <==>
      v in {"1", "t", "T", "true", "True", "TRUE"} || v in {"0", "f", "F", "false", "False", "FALSE"}
    ensures ParseBool(v) == Some(true) ==> v[0] in {'1', 't', 'T'}
    ensures ParseBool(v) == Some(false) ==> v[0] in {'0', 'f', 'F'}
  {
  }

  // ---- the flags of an export

  datatype Flag =
    | Out | Mode | Since | Manifest | LogFile | Profile | Wait | Input | FollowLinks
    | Auto | CopyFirst | Outlook | Index | Pages | Raw | EnableOffline | SyncWait | Unattended | List | Presync

  function NameOf(f: Flag): string {
    match f
    case Out => "out"
    case Mode => "mode"
    case Since => "since"
    case Manifest => "manifest"
    case LogFile => "log"
    case Profile => "thunderbird-profile"
    case Wait => "outlook-sync-wait"
    case Input => "input"
    case FollowLinks => "follow-links"
    case Auto => "auto"
    case CopyFirst => "copy-first"
    case Outlook => "outlook"
    case Index => "index"
    case Pages => "pages"
    case Raw => "raw"
    case EnableOffline => "enable-offline"
    case SyncWait => "sync-wait"
    case Unattended => "unattended"
    case List => "list"
    case Presync => "thunderbird-sync"
  }

  const VALUE_FLAGS: seq<Flag> := [Out, Mode, Since, Manifest, LogFile, Profile, Wait, Input, FollowLinks]
  const BOOL_FLAGS: seq<Flag> :=
    [Auto, CopyFirst, Outlook, Index, Pages, Raw, EnableOffline, SyncWait, Unattended, List, Presync]

  function Find(name: string, flags: seq<Flag>, isBool: bool): Option<Def<Flag>> {
    if flags == [] then None else if NameOf(flags[0]) == name then Some(Def(flags[0], isBool)) else Find(name, flags[1..], isBool)
  }

  function Lookup(name: string): Option<Def<Flag>> {
    var v := Find(name, VALUE_FLAGS, false);
    if v.Some? then v else Find(name, BOOL_FLAGS, true)
  }

  function ExportFlags(): FlagSet<Flag> { FlagSet(Lookup, NameOf) }

  /** A flag that takes a value. */
  predicate Takes(f: Flag) {
    f.Out? || f.Mode? || f.Since? || f.Manifest? || f.LogFile? || f.Profile? || f.Wait? || f.Input? || f.FollowLinks?
  }

  lemma {:induction false} FindIs(f: Flag, flags: seq<Flag>, isBool: bool)
    requires forall g, h :: NameOf(g) == NameOf(h) ==> g == h
    ensures Find(NameOf(f), flags, isBool) == if f in flags then Some(Def(f, isBool)) else None
  {
    hide NameOf;
    if flags != [] {
      FindIs(f, flags[1..], isBool);
      assert flags == [flags[0]] + flags[1..];
    }
  }

  /** Every flag has a name of its own. */
  lemma NamesDiffer()
    ensures forall g, h :: NameOf(g) == NameOf(h) ==> g == h
  {
    forall g, h | NameOf(g) == NameOf(h) ensures g == h {
      assert Code(NameOf(g)) == Code(NameOf(h));
    }
  }

  /** What tells the names apart: the length and three letters. */
  function Code(s: string): (nat, char, char, char) {
    (|s|, if |s| > 0 then s[0] else ' ', if |s| > 1 then s[1] else ' ', if |s| > 12 then s[12] else ' ')
  }

  lemma LookupIs(f: Flag)
    ensures Lookup(NameOf(f)) == Some(Def(f, !Takes(f)))
  {
    NamesDiffer();
    BothLists(f);
    hide NameOf;
    hide Find;
    FindIs(f, VALUE_FLAGS, false);
    FindIs(f, BOOL_FLAGS, true);
  }

  lemma FlagsDefined(settings: seq<Setting<Flag>>)
    ensures AllDefined(ExportFlags(), settings)
  {
    forall f ensures FlagName(NameOf(f)) {
    }
    hide NameOf;
    hide Lookup;
    hide FlagName;
    forall f ensures Lookup(NameOf(f)) == Some(Def(f, !Takes(f))) {
      LookupIs(f);
    }
    hide Takes;
  }

  lemma BothLists(f: Flag)
    ensures (f in VALUE_FLAGS || f in BOOL_FLAGS) && (f in VALUE_FLAGS <==> Takes(f))
  {
    if Takes(f) {
      var i := if f.Out? then 0 else if f.Mode? then 1 else if f.Since? then 2 else if f.Manifest? then 3 else if f.LogFile? then 4
        else if f.Profile? then 5 else if f.Wait? then 6 else if f.Input? then 7 else 8;
      assert VALUE_FLAGS[i] == f;
    } else {
      var i := if f.Auto? then 0 else if f.CopyFirst? then 1 else if f.Outlook? then 2 else if f.Index? then 3 else if f.Pages? then 4
        else if f.Raw? then 5 else if f.EnableOffline? then 6 else if f.SyncWait? then 7 else if f.Unattended? then 8
        else if f.List? then 9 else 10;
      assert BOOL_FLAGS[i] == f;
    }
  }

  function Switch(on: set<Flag>, f: Flag, b: bool): set<Flag> { if b then on + {f} else on - {f} }

  function SetBool(o: Opts, f: Flag, b: bool): Opts { o.(on := Switch(o.on, f, b)) }

  /** The flags whose value is a string. */
  predicate IsText(f: Flag) { f.Out? || f.Mode? || f.Since? || f.Manifest? || f.LogFile? || f.Profile? }

  function TextOf(o: Opts, f: Flag): string
    requires IsText(f)
  {
    match f
    case Out => o.out
    case Mode => o.mode
    case Since => o.since
    case Manifest => o.manifest
    case LogFile => o.log
    case Profile => o.profile
  }

  function SetText(o: Opts, f: Flag, v: string): Opts
    requires IsText(f)
  {
    match f
    case Out => o.(out := v)
    case Mode => o.(mode := v)
    case Since => o.(since := v)
    case Manifest => o.(manifest := v)
    case LogFile => o.(log := v)
    case Profile => o.(profile := v)
  }

  /** One setting; the flag's own Set may refuse the value. */
  function Apply(env: Env, o: Opts, s: Setting<Flag>): Option<Opts> {
    match s.flag
    case Out | Mode | Since | Manifest | LogFile | Profile => Some(SetText(o, s.flag, s.value))
    case Wait => if env.wait(s.value).Some? then Some(o.(wait := env.wait(s.value).value)) else None
    case Input => Some(o.(inputs := o.inputs + Pieces(s.value)))
    case FollowLinks => Some(o.(follow := o.follow + Pieces(s.value)))
    case _ => if ParseBool(s.value).Some? then Some(SetBool(o, s.flag, ParseBool(s.value).value)) else None
  }

  function Fold(env: Env, o: Opts, settings: seq<Setting<Flag>>): Option<Opts> {
    if settings == [] then Some(o)
    else
      var before := Fold(env, o, settings[..|settings| - 1]);
      if before.None? then None else Apply(env, before.value, settings[|settings| - 1])
  }

  /** The flags as parsed, positionals among the inputs. */
  function ParseFlags(env: Env, args: seq<string>): Option<Opts> {
    match Scan(ExportFlags(), args)
    case Refused => None
    case Scanned(settings, rest) =>
      match Fold(env, Defaults(), settings)
      case None => None
      case Some(o) => Some(o.(inputs := o.inputs + rest))
  }

  // ---- the checks

  predicate NoControl(v: string) { forall i :: 0 <= i < |v| ==> v[i] >= 32 as char && v[i] != 127 as char }

  predicate AllNoControl(vs: seq<string>) { forall i :: 0 <= i < |vs| ==> NoControl(vs[i]) }

  predicate ModeOk(env: Env, mode: string) {
    var m := env.lower(mode);
    m == "incremental" || m == "" || m == "full"
  }

  /** Every followed input is one of the inputs. */
  predicate FollowOk(env: Env, follow: seq<string>, inputs: seq<string>) {
    forall i :: 0 <= i < |follow| ==> exists j :: 0 <= j < |inputs| && env.id(inputs[j]) == env.id(follow[i])
  }

  predicate Accepts(env: Env, o: Opts) {
    && EnableOffline !in o.on && SyncWait !in o.on && (Outlook in o.on ==> env.outlookOk) && o.out != ""
    && ModeOk(env, o.mode) && (o.since != "" ==> env.sinceOk(o.since))
    && NoControl(o.out) && NoControl(o.manifest) && NoControl(o.log) && NoControl(o.since) && NoControl(o.profile)
    && AllNoControl(o.inputs) && AllNoControl(o.follow)
    && FollowOk(env, o.follow, o.inputs)
    && (o.profile != "" ==> Presync in o.on) && (Presync in o.on ==> env.presyncOk)
  }

  // ---- the canonical form

  function Abs(env: Env, p: string): string { if p == "" then "" else env.abs(p) }

  function AbsAll(env: Env, ps: seq<string>): (r: seq<string>)
    ensures |r| == |ps| && forall i :: 0 <= i < |r| ==> r[i] == Abs(env, ps[i])
  {
    if ps == [] then [] else AbsAll(env, ps[..|ps| - 1]) + [Abs(env, ps[|ps| - 1])]
  }

  function JobOn(on: set<Flag>): set<Flag> { on - {EnableOffline, SyncWait, List} + {Unattended} }

  /** What of the options a job keeps. */
  function Canonical(env: Env, o: Opts): Opts {
    o.(out := Abs(env, o.out), mode := env.lower(o.mode), inputs := AbsAll(env, o.inputs), follow := AbsAll(env, o.follow),
       manifest := Abs(env, o.manifest), log := Abs(env, o.log), profile := if Presync in o.on then Abs(env, o.profile) else "",
       wait := if Outlook in o.on then o.wait else DEFAULT_WAIT,
       on := JobOn(o.on))
  }

  type Settings = seq<Setting<Flag>>

  function Str(a: Settings, f: Flag, v: string): Settings { if v == "" then a else a + [Setting(f, v)] }

  function On(a: Settings, f: Flag, b: bool): Settings { if b then a + [Setting(f, "true")] else a }

  function Off(a: Settings, f: Flag, b: bool): Settings { if b then a else a + [Setting(f, "false")] }

  function Each(a: Settings, f: Flag, vs: seq<string>): Settings {
    if vs == [] then a else Each(a, f, vs[..|vs| - 1]) + [Setting(f, vs[|vs| - 1])]
  }

  /** The settings both forms carry, in order, after those of a first list. */
  function Body(o: Opts, first: Settings): Settings { Choices(o, Sources(o, first)) }

  function Sources(o: Opts, first: Settings): Settings {
    Each(On(Each(On(Str(first, Since, o.since), Auto, Auto in o.on), Input, o.inputs), CopyFirst, CopyFirst in o.on), FollowLinks, o.follow)
  }

  function Choices(o: Opts, first: Settings): Settings {
    Str(On(Off(Off(WithOutlook(o, first), Index, Index in o.on), Pages, Pages in o.on), Raw, Raw in o.on), Manifest, o.manifest)
  }

  function WithOutlook(o: Opts, first: Settings): Settings {
    if Outlook in o.on then first + [Setting(Outlook, "true")] + [Setting(Wait, o.wait)] else first
  }

  function Sync(o: Opts, first: Settings): Settings {
    if Presync in o.on then Str(first + [Setting(Presync, "true")], Profile, o.profile) else first
  }

  function JobHead(o: Opts): Settings {
    [] + [Setting(Out, o.out)] + [Setting(Mode, o.mode)] + [Setting(Unattended, "true")]
  }

  /** The settings of a job, in the order its arguments carry them. */
  function SettingsOf(o: Opts): Settings { Sync(o, Str(Body(o, JobHead(o)), LogFile, o.log)) }

  /** The settings of the flat form of an export. */
  function FlatSettings(o: Opts): Settings {
    var body := Body(o, Str([], Out, o.out) + [Setting(Mode, o.mode)]);
    Sync(o, On(On(body, EnableOffline, EnableOffline in o.on), SyncWait, SyncWait in o.on))
  }

  function JobOf(o: Opts): Job { Job("", Emit(ExportFlags(), SettingsOf(o)), o.out, Presync in o.on) }

  /** parseJob, for an export. */
  function ParseExport(env: Env, args: seq<string>): Option<Job> {
    match ParseFlags(env, args)
    case None => None
    case Some(o) => if Accepts(env, o) then Some(JobOf(Canonical(env, o))) else None
  }

  /** What is assumed of the platform: paths made absolute stay so, and stay as plain and as much the same
      input as they were; durations and modes printed are read back. */
  ghost predicate EnvOk(env: Env) {
    && (forall p :: env.abs(env.abs(p)) == env.abs(p))
    && (forall p :: p != "" ==> env.abs(p) != "")
    && (forall p :: NoControl(p) ==> NoControl(env.abs(p)))
    && (forall p :: env.id(env.abs(p)) == env.id(p))
    && (forall s, d :: env.wait(s) == Some(d) ==> env.wait(d) == Some(d))
    && env.wait(DEFAULT_WAIT) == Some(DEFAULT_WAIT)
    && (forall s :: env.lower(env.lower(s)) == env.lower(s))
  }

  // ---- parsing what was printed

  lemma FoldMore(env: Env, o: Opts, a: Settings, s: Setting<Flag>)
    ensures Fold(env, o, a + [s]) == if Fold(env, o, a).None? then None else Apply(env, Fold(env, o, a).value, s)
  {
    assert (a + [s])[..|a|] == a;
    hide Apply;
  }

  lemma TextApplies(env: Env, o: Opts, f: Flag, v: string)
    requires IsText(f)
    ensures Apply(env, o, Setting(f, v)) == Some(SetText(o, f, v))
    ensures v == TextOf(o, f) ==> SetText(o, f, v) == o
  {
  }

  lemma FoldText(env: Env, o: Opts, a: Settings, o': Opts, f: Flag, v: string)
    requires Fold(env, o, a) == Some(o') && IsText(f)
    ensures Fold(env, o, a + [Setting(f, v)]) == Some(SetText(o', f, v))
    ensures TextOf(o', f) == "" ==> Fold(env, o, Str(a, f, v)) == Some(SetText(o', f, v))
  {
    FoldMore(env, o, a, Setting(f, v));
    TextApplies(env, o', f, v);
    hide Fold;
    hide Apply;
    hide SetText;
    hide TextOf;
  }

  lemma TrueApplies(env: Env, o: Opts, f: Flag)
    requires !Takes(f)
    ensures Apply(env, o, Setting(f, "true")) == Some(SetBool(o, f, true))
    ensures Apply(env, o, Setting(f, "false")) == Some(SetBool(o, f, false))
  {
    hide SetBool;
  }

  lemma SwitchSame(on: set<Flag>, f: Flag)
    ensures Switch(on, f, f in on) == on
  {
  }

  lemma FoldTrue(env: Env, o: Opts, a: Settings, o': Opts, f: Flag)
    requires Fold(env, o, a) == Some(o') && !Takes(f)
    ensures Fold(env, o, a + [Setting(f, "true")]) == Some(SetBool(o', f, true))
    ensures Fold(env, o, a + [Setting(f, "false")]) == Some(SetBool(o', f, false))
  {
    FoldMore(env, o, a, Setting(f, "true"));
    FoldMore(env, o, a, Setting(f, "false"));
    TrueApplies(env, o', f);
    hide *;
  }

  lemma FoldOn(env: Env, o: Opts, a: Settings, o': Opts, f: Flag, b: bool)
    requires Fold(env, o, a) == Some(o') && !Takes(f) && f !in o'.on
    ensures Fold(env, o, On(a, f, b)) == Some(SetBool(o', f, b))
  {
    SwitchSame(o'.on, f);
    hide Fold;
    hide Switch;
    hide Takes;
    if b {
      FoldTrue(env, o, a, o', f);
    }
  }

  lemma FoldOff(env: Env, o: Opts, a: Settings, o': Opts, f: Flag, b: bool)
    requires Fold(env, o, a) == Some(o') && !Takes(f) && f in o'.on
    ensures Fold(env, o, Off(a, f, b)) == Some(SetBool(o', f, b))
  {
    SwitchSame(o'.on, f);
    hide Fold;
    hide Switch;
    hide Takes;
    if !b {
      FoldTrue(env, o, a, o', f);
    }
  }

  function AllPieces(vs: seq<string>): seq<string> {
    if vs == [] then [] else AllPieces(vs[..|vs| - 1]) + Pieces(vs[|vs| - 1])
  }

  function Adding(o: Opts, f: Flag, vs: seq<string>): Opts {
    if f.Input? then o.(inputs := o.inputs + vs) else o.(follow := o.follow + vs)
  }

  lemma Joined<T>(x: seq<T>, a: seq<T>, b: seq<T>)
    ensures x + a + b == x + (a + b)
  {
  }

  lemma AddingNone(o: Opts, f: Flag)
    ensures Adding(o, f, []) == o
  {
    assert o.inputs + [] == o.inputs && o.follow + [] == o.follow;
  }

  lemma AddingMore(env: Env, o: Opts, f: Flag, vs: seq<string>, v: string)
    requires f.Input? || f.FollowLinks?
    ensures Apply(env, Adding(o, f, vs), Setting(f, v)) == Some(Adding(o, f, vs + Pieces(v)))
  {
    hide Pieces;
    Joined(if f.Input? then o.inputs else o.follow, vs, Pieces(v));
  }

  lemma {:induction false} FoldEach(env: Env, o: Opts, a: Settings, o': Opts, f: Flag, vs: seq<string>)
    requires Fold(env, o, a) == Some(o') && (f.Input? || f.FollowLinks?)
    ensures Fold(env, o, Each(a, f, vs)) == Some(Adding(o', f, AllPieces(vs)))
  {
    if vs == [] {
      AddingNone(o', f);
    } else {
      var front, last := vs[..|vs| - 1], vs[|vs| - 1];
      FoldEach(env, o, a, o', f, front);
      FoldMore(env, o, Each(a, f, front), Setting(f, last));
      AddingMore(env, o', f, AllPieces(front), last);
      hide Fold;
      hide Apply;
      hide Adding;
      hide Pieces;
    }
  }

  lemma {:induction false} WholePieces(vs: seq<string>)
    requires forall i :: 0 <= i < |vs| ==> OnePiece(vs[i])
    ensures AllPieces(vs) == vs
  {
    if vs != [] {
      WholePieces(vs[..|vs| - 1]);
      OnePieceIs(vs[|vs| - 1]);
      assert vs == vs[..|vs| - 1] + [vs[|vs| - 1]];
    }
  }

  /** Nothing but the head was set. */
  predicate Unset(o: Opts) {
    && o.since == "" && o.inputs == [] && o.follow == [] && o.manifest == "" && o.log == "" && o.profile == ""
    && o.wait == DEFAULT_WAIT && (o.on == {Index, Pages} || o.on == {Index, Pages, Unattended})
  }

  function As(on: set<Flag>, f: Flag, c: Opts): set<Flag> { Switch(on, f, f in c.on) }

  function SourcesSet(o: Opts, c: Opts): Opts {
    o.(since := c.since, inputs := AllPieces(c.inputs), follow := AllPieces(c.follow), on := As(As(o.on, Auto, c), CopyFirst, c))
  }

  function ChoicesSet(o: Opts, c: Opts): Opts {
    o.(wait := if Outlook in c.on then c.wait else o.wait, manifest := c.manifest,
       on := As(As(As(As(o.on, Outlook, c), Index, c), Pages, c), Raw, c))
  }

  lemma FoldSources(env: Env, o: Opts, first: Settings, o0: Opts, c: Opts)
    requires Fold(env, o, first) == Some(o0) && Unset(o0)
    ensures Fold(env, o, Sources(c, first)) == Some(SourcesSet(o0, c))
  {
    hide Fold;
    hide Apply;
    hide Str;
    hide On;
    hide Each;
    hide AllPieces;
    FoldText(env, o, first, o0, Since, c.since);
    var a1, o1 := Str(first, Since, c.since), SetText(o0, Since, c.since);
    FoldOn(env, o, a1, o1, Auto, Auto in c.on);
    var a2, o2 := On(a1, Auto, Auto in c.on), SetBool(o1, Auto, Auto in c.on);
    FoldEach(env, o, a2, o2, Input, c.inputs);
    var a3, o3 := Each(a2, Input, c.inputs), Adding(o2, Input, AllPieces(c.inputs));
    FoldOn(env, o, a3, o3, CopyFirst, CopyFirst in c.on);
    var a4, o4 := On(a3, CopyFirst, CopyFirst in c.on), SetBool(o3, CopyFirst, CopyFirst in c.on);
    FoldEach(env, o, a4, o4, FollowLinks, c.follow);
    AddedOnly(o2.inputs, AllPieces(c.inputs));
    AddedOnly(o4.follow, AllPieces(c.follow));
  }

  lemma AddedOnly(none: seq<string>, vs: seq<string>)
    ensures none == [] ==> none + vs == vs
  {
  }

  lemma FoldOutlook(env: Env, o: Opts, a: Settings, o': Opts, c: Opts)
    requires Fold(env, o, a) == Some(o') && (Outlook in c.on ==> env.wait(c.wait) == Some(c.wait)) && Outlook !in o'.on
    ensures Fold(env, o, WithOutlook(c, a))
      == Some(o'.(on := As(o'.on, Outlook, c), wait := if Outlook in c.on then c.wait else o'.wait))
  {
    SwitchSame(o'.on, Outlook);
    hide Switch;
    if Outlook in c.on {
      FoldTrue(env, o, a, o', Outlook);
      FoldMore(env, o, a + [Setting(Outlook, "true")], Setting(Wait, c.wait));
      hide Fold;
    }
  }

  lemma FoldChoices(env: Env, o: Opts, first: Settings, o0: Opts, c: Opts)
    requires Fold(env, o, first) == Some(o0) && (Outlook in c.on ==> env.wait(c.wait) == Some(c.wait))
    requires Outlook !in o0.on && Index in o0.on && Pages in o0.on && Raw !in o0.on && o0.manifest == ""
    ensures Fold(env, o, Choices(c, first)) == Some(ChoicesSet(o0, c))
  {
    hide Fold;
    hide Apply;
    hide Str;
    hide On;
    hide Off;
    FoldOutlook(env, o, first, o0, c);
    hide WithOutlook;
    var a1 := WithOutlook(c, first);
    var o1 := o0.(on := As(o0.on, Outlook, c), wait := if Outlook in c.on then c.wait else o0.wait);
    FoldOff(env, o, a1, o1, Index, Index in c.on);
    var a2, o2 := Off(a1, Index, Index in c.on), SetBool(o1, Index, Index in c.on);
    FoldOff(env, o, a2, o2, Pages, Pages in c.on);
    var a3, o3 := Off(a2, Pages, Pages in c.on), SetBool(o2, Pages, Pages in c.on);
    FoldOn(env, o, a3, o3, Raw, Raw in c.on);
    var a4, o4 := On(a3, Raw, Raw in c.on), SetBool(o3, Raw, Raw in c.on);
    FoldText(env, o, a4, o4, Manifest, c.manifest);
  }

  lemma FoldSync(env: Env, o: Opts, first: Settings, o0: Opts, c: Opts)
    requires Fold(env, o, first) == Some(o0) && Presync !in o0.on && o0.profile == ""
    ensures Fold(env, o, Sync(c, first))
      == Some(o0.(on := As(o0.on, Presync, c), profile := if Presync in c.on then c.profile else ""))
  {
    SwitchSame(o0.on, Presync);
    hide Fold;
    hide Apply;
    hide Str;
    hide Switch;
    if Presync in c.on {
      FoldTrue(env, o, first, o0, Presync);
      FoldText(env, o, first + [Setting(Presync, "true")], SetBool(o0, Presync, true), Profile, c.profile);
    }
  }

  // ---- the fixed point

  /** Only bool flags are switched on. */
  ghost predicate AllSwitches(o: Opts) { forall f :: f in o.on ==> !Takes(f) }

  lemma {:induction false} FoldSwitches(env: Env, o: Opts, settings: Settings)
    requires AllSwitches(o)
    ensures Fold(env, o, settings).Some? ==> AllSwitches(Fold(env, o, settings).value)
  {
    if settings != [] {
      FoldSwitches(env, o, settings[..|settings| - 1]);
    }
  }

  /** The options as their command is read back: lists are split again. */
  function Reread(c: Opts): Opts { c.(inputs := AllPieces(c.inputs), follow := AllPieces(c.follow)) }

  /** A job's options: nothing a job does not carry. */
  ghost predicate Kept(env: Env, c: Opts) {
    && AllSwitches(c) && Unattended in c.on && EnableOffline !in c.on && SyncWait !in c.on && List !in c.on
    && (if Outlook in c.on then env.wait(c.wait) == Some(c.wait) else c.wait == DEFAULT_WAIT)
    && (Presync !in c.on ==> c.profile == "")
  }

  lemma SwitchesBack(on0: set<Flag>, c: Opts)
    requires AllSwitches(c) && EnableOffline !in c.on && SyncWait !in c.on && List !in c.on
    requires on0 == {Index, Pages} || on0 == {Index, Pages, Unattended}
    ensures As(As(As(As(As(As(As(on0, Auto, c), CopyFirst, c), Outlook, c), Index, c), Pages, c), Raw, c), Presync, c)
      == c.on - {Unattended} + (on0 - {Index, Pages})
  {
    var on := As(As(As(As(As(As(As(on0, Auto, c), CopyFirst, c), Outlook, c), Index, c), Pages, c), Raw, c), Presync, c);
    forall f ensures f in on <==> f in c.on - {Unattended} + (on0 - {Index, Pages}) {
      if f.Auto? || f.CopyFirst? || f.Outlook? || f.Index? || f.Pages? || f.Raw? || f.Presync? {
        assert f in on <==> f in c.on;
      }
    }
  }

  lemma FoldHead(env: Env, c: Opts)
    ensures Fold(env, Defaults(), JobHead(c)) == Some(Defaults().(out := c.out, mode := c.mode, on := {Index, Pages, Unattended}))
  {
    var o := Defaults();
    assert Fold(env, o, []) == Some(o);
    hide Fold;
    hide Apply;
    FoldText(env, o, [], o, Out, c.out);
    FoldText(env, o, [] + [Setting(Out, c.out)], o.(out := c.out), Mode, c.mode);
    FoldTrue(env, o, [] + [Setting(Out, c.out)] + [Setting(Mode, c.mode)], o.(out := c.out, mode := c.mode), Unattended);
    assert Switch(o.on, Unattended, true) == {Index, Pages, Unattended};
  }

  /** What the whole of the settings sets, from the head on. */
  function AllSet(o0: Opts, c: Opts): Opts {
    var o := ChoicesSet(SourcesSet(o0, c), c);
    o.(on := As(o.on, Presync, c), profile := if Presync in c.on then c.profile else "")
  }

  lemma FoldBody(env: Env, first: Settings, o0: Opts, c: Opts)
    requires Fold(env, Defaults(), first) == Some(o0) && Unset(o0) && (Outlook in c.on ==> env.wait(c.wait) == Some(c.wait))
    ensures Fold(env, Defaults(), Body(c, first)) == Some(ChoicesSet(SourcesSet(o0, c), c))
    ensures var o := ChoicesSet(SourcesSet(o0, c), c);
      Presync !in o.on && o.profile == "" && o.log == ""
  {
    StillOff(o0.on, c);
    hide Fold;
    hide As;
    hide AllPieces;
    FoldSources(env, Defaults(), first, o0, c);
    FoldChoices(env, Defaults(), Sources(c, first), SourcesSet(o0, c), c);
    hide Sources;
    hide Choices;
  }

  lemma FoldRest(env: Env, first: Settings, o0: Opts, c: Opts)
    requires Fold(env, Defaults(), first) == Some(o0) && Unset(o0) && (Outlook in c.on ==> env.wait(c.wait) == Some(c.wait))
    ensures Fold(env, Defaults(), Sync(c, Str(Body(c, first), LogFile, c.log))) == Some(AllSet(o0, c).(log := c.log))
    ensures Fold(env, Defaults(), Sync(c, Body(c, first))) == Some(AllSet(o0, c))
  {
    FoldBody(env, first, o0, c);
    var a, o1 := Body(c, first), ChoicesSet(SourcesSet(o0, c), c);
    hide Fold;
    hide As;
    hide AllPieces;
    hide Body;
    hide ChoicesSet;
    hide SourcesSet;
    FoldText(env, Defaults(), a, o1, LogFile, c.log);
    FoldSync(env, Defaults(), Str(a, LogFile, c.log), o1.(log := c.log), c);
    FoldSync(env, Defaults(), a, o1, c);
    hide Sync;
  }

  lemma FinalOpts(env: Env, c: Opts)
    requires Kept(env, c)
    ensures AllSet(Defaults().(out := c.out, mode := c.mode, on := {Index, Pages, Unattended}), c).(log := c.log) == Reread(c)
  {
    SwitchesBack({Index, Pages, Unattended}, c);
    assert c.on - {Unattended} + ({Index, Pages, Unattended} - {Index, Pages}) == c.on;
    hide As;
    hide AllPieces;
  }

  /** A job's settings set exactly its options, lists split again. */
  lemma FoldSettings(env: Env, c: Opts)
    requires Kept(env, c)
    ensures Fold(env, Defaults(), SettingsOf(c)) == Some(Reread(c))
  {
    FoldHead(env, c);
    FoldRest(env, JobHead(c), Defaults().(out := c.out, mode := c.mode, on := {Index, Pages, Unattended}), c);
    FinalOpts(env, c);
    hide Fold;
    hide AllSet;
    hide JobHead;
    hide Sync;
    hide Body;
  }

  /** The flags set later are still as they were. */
  lemma StillOff(on: set<Flag>, c: Opts)
    requires on == {Index, Pages} || on == {Index, Pages, Unattended}
    ensures var on1 := As(As(on, Auto, c), CopyFirst, c);
      && Outlook !in on1 && Index in on1 && Pages in on1 && Raw !in on1
      && Presync !in As(As(As(As(on1, Outlook, c), Index, c), Pages, c), Raw, c)
      && EnableOffline !in As(As(As(As(on1, Outlook, c), Index, c), Pages, c), Raw, c)
      && SyncWait !in As(As(As(As(on1, Outlook, c), Index, c), Pages, c), Raw, c)
  {
  }

  ghost predicate AllOnePiece(vs: seq<string>) { forall i :: 0 <= i < |vs| ==> OnePiece(vs[i]) }

  lemma JobOnIs(o: Opts)
    requires AllSwitches(o)
    ensures var on := JobOn(o.on);
      && Unattended in on && EnableOffline !in on && SyncWait !in on && List !in on
      && (Presync in on <==> Presync in o.on) && (Outlook in on <==> Outlook in o.on) && forall f :: f in on ==> !Takes(f)
  {
  }

  /** What a command keeps of the options its arguments set is a job's. */
  lemma CanonicalKept(env: Env, args: seq<string>, o: Opts)
    requires EnvOk(env) && ParseFlags(env, args) == Some(o)
    ensures Kept(env, Canonical(env, o))
  {
    ParsedOpts(env, args, o);
    JobOnIs(o);
    hide ParseFlags;
    hide EnvOk;
    hide JobOn;
    hide AbsAll;
    hide Takes;
  }

  ghost predicate WaitParsed(env: Env, o: Opts) { env.wait(o.wait) == Some(o.wait) }

  lemma {:induction false} FoldWaits(env: Env, o: Opts, settings: Settings)
    requires EnvOk(env) && WaitParsed(env, o)
    ensures Fold(env, o, settings).Some? ==> WaitParsed(env, Fold(env, o, settings).value)
  {
    if settings != [] {
      FoldWaits(env, o, settings[..|settings| - 1]);
      hide Pieces;
    }
  }

  lemma ParsedOpts(env: Env, args: seq<string>, o: Opts)
    requires EnvOk(env) && ParseFlags(env, args) == Some(o)
    ensures AllSwitches(o) && WaitParsed(env, o)
  {
    var settings := Scan(ExportFlags(), args).settings;
    FoldSwitches(env, Defaults(), settings);
    FoldWaits(env, Defaults(), settings);
    hide Fold;
    hide Scan;
  }

  lemma AbsFacts(env: Env, p: string)
    requires EnvOk(env)
    ensures Abs(env, Abs(env, p)) == Abs(env, p) && (Abs(env, p) == "" <==> p == "")
    ensures NoControl(p) ==> NoControl(Abs(env, p))
    ensures env.id(Abs(env, p)) == env.id(p)
  {
    hide NoControl;
  }

  lemma LowerFacts(env: Env, mode: string)
    requires EnvOk(env)
    ensures env.lower(env.lower(mode)) == env.lower(mode)
  {
    hide NoControl;
  }

  lemma FollowAbs(env: Env, follow: seq<string>, inputs: seq<string>)
    requires EnvOk(env) && FollowOk(env, follow, inputs)
    ensures FollowOk(env, AbsAll(env, follow), AbsAll(env, inputs))
  {
    var f', i' := AbsAll(env, follow), AbsAll(env, inputs);
    forall i | 0 <= i < |f'| ensures exists j :: 0 <= j < |i'| && env.id(i'[j]) == env.id(f'[i]) {
      var j :| 0 <= j < |inputs| && env.id(inputs[j]) == env.id(follow[i]);
      AbsFacts(env, inputs[j]);
      AbsFacts(env, follow[i]);
      hide Abs;
      hide EnvOk;
      assert env.id(i'[j]) == env.id(f'[i]);
    }
  }

  lemma ListAbs(env: Env, ps: seq<string>)
    requires EnvOk(env)
    ensures AbsAll(env, AbsAll(env, ps)) == AbsAll(env, ps)
    ensures AllNoControl(ps) ==> AllNoControl(AbsAll(env, ps))
  {
    forall i | 0 <= i < |ps|
      ensures Abs(env, Abs(env, ps[i])) == Abs(env, ps[i]) && (NoControl(ps[i]) ==> NoControl(Abs(env, ps[i])))
    {
      AbsFacts(env, ps[i]);
    }
    hide Abs;
    hide EnvOk;
    hide NoControl;
    var once := AbsAll(env, ps);
    assert forall i :: 0 <= i < |ps| ==> AbsAll(env, once)[i] == once[i];
  }

  lemma AcceptsCanonical(env: Env, o: Opts)
    requires EnvOk(env) && Accepts(env, o)
    ensures Accepts(env, Canonical(env, o))
  {
    FollowAbs(env, o.follow, o.inputs);
    AbsFacts(env, o.out);
    AbsFacts(env, o.manifest);
    AbsFacts(env, o.log);
    AbsFacts(env, o.profile);
    LowerFacts(env, o.mode);
    ListAbs(env, o.inputs);
    ListAbs(env, o.follow);
    NoControlEmpty();
    hide EnvOk;
    hide FollowOk;
    hide AllNoControl;
    hide NoControl;
    hide Abs;
    hide AbsAll;
  }

  lemma NoControlEmpty()
    ensures NoControl("")
  {
  }

  lemma OnTwice(on: set<Flag>)
    ensures JobOn(JobOn(on)) == JobOn(on) && (Presync in JobOn(on) <==> Presync in on) && (Outlook in JobOn(on) <==> Outlook in on)
  {
  }

  lemma CanonicalTwice(env: Env, o: Opts)
    requires EnvOk(env)
    ensures Canonical(env, Canonical(env, o)) == Canonical(env, o)
  {
    AbsFacts(env, o.out);
    AbsFacts(env, o.manifest);
    AbsFacts(env, o.log);
    AbsFacts(env, o.profile);
    LowerFacts(env, o.mode);
    ListAbs(env, o.inputs);
    ListAbs(env, o.follow);
    hide EnvOk;
    hide AbsAll;
    hide Abs;
    OnTwice(o.on);
    hide JobOn;
  }

  lemma ReparseIs(env: Env, c: Opts)
    requires Kept(env, c)
    ensures ParseFlags(env, JobOf(c).args) == Some(Reread(c))
  {
    var fs := ExportFlags();
    FlagsDefined(SettingsOf(c));
    ScanEmit(fs, SettingsOf(c));
    FoldSettings(env, c);
    hide Fold;
    hide SettingsOf;
    hide Emit;
    hide Scan;
    assert Reread(c).inputs + [] == Reread(c).inputs;
  }

  /** Job canonicalisation is a fixed point of parsing where every input's absolute path is one piece of a
      comma-separated flag. */
  lemma CommandReparses(env: Env, args: seq<string>, o: Opts)
    requires EnvOk(env) && ParseFlags(env, args) == Some(o) && Accepts(env, o)
    requires AllOnePiece(Canonical(env, o).inputs) && AllOnePiece(Canonical(env, o).follow)
    ensures ParseExport(env, args) == Some(JobOf(Canonical(env, o)))
    ensures ParseExport(env, JobOf(Canonical(env, o)).args) == ParseExport(env, args)
  {
    var c := Canonical(env, o);
    CanonicalKept(env, args, o);
    AcceptsCanonical(env, o);
    CanonicalTwice(env, o);
    ReparseIs(env, c);
    WholePieces(c.inputs);
    WholePieces(c.follow);
    hide Canonical;
    hide Accepts;
    hide ParseFlags;
    hide JobOf;
  }

  /** A path as a job has it: absolute, or none. */
  predicate Rewritten(env: Env, was: string, now: string) { now == if was == "" then "" else env.abs(was) }

  /** The second asks for what the first does, lists aside: with absolute paths and run unattended, the wait of an
      Outlook export and the profile of a pre-sync only where they are asked for. */
  ghost predicate Asks(env: Env, o: Opts, r: Opts) {
    && r.out == env.abs(o.out) && r.mode == env.lower(o.mode) && r.since == o.since
    && Rewritten(env, o.manifest, r.manifest) && Rewritten(env, o.log, r.log)
    && (if Presync in o.on then Rewritten(env, o.profile, r.profile) else r.profile == "")
    && (Outlook in o.on ==> r.wait == o.wait)
    && forall f :: f in r.on <==> f == Unattended || (f in o.on && f != List)
  }

  ghost predicate AllRewritten(env: Env, was: seq<string>, now: seq<string>) {
    |now| == |was| && forall i :: 0 <= i < |now| ==> Rewritten(env, was[i], now[i])
  }

  lemma CanonicalMeans(env: Env, o: Opts)
    requires o.out != "" && EnableOffline !in o.on && SyncWait !in o.on
    ensures var c := Canonical(env, o);
      && c.out == env.abs(o.out) && (Presync in c.on <==> Presync in o.on)
      && Asks(env, o, c) && Asks(env, o, Reread(c))
      && AllRewritten(env, o.inputs, c.inputs) && AllRewritten(env, o.follow, c.follow)
  {
    hide AllPieces;
  }

  /** What a job's command asks for, read by the export it starts, is what was asked for, path by path where each is
      one piece. */
  lemma CommandMeans(env: Env, args: seq<string>, o: Opts)
    requires EnvOk(env) && ParseFlags(env, args) == Some(o) && Accepts(env, o)
    ensures ParseExport(env, args).Some?
    ensures var j := ParseExport(env, args).value;
      && j.verb == "" && j.out == env.abs(o.out) && (j.presync <==> Presync in o.on)
      && ParseFlags(env, j.args).Some?
      && var r := ParseFlags(env, j.args).value;
      && Asks(env, o, r)
      && (AllOnePiece(Canonical(env, o).inputs) ==> AllRewritten(env, o.inputs, r.inputs))
      && (AllOnePiece(Canonical(env, o).follow) ==> AllRewritten(env, o.follow, r.follow))
  {
    hide *;
    var c := Canonical(env, o);
    ExportIs(env, args, o);
    CanonicalKept(env, args, o);
    ReparseIs(env, c);
    RereadWhole(c);
    AcceptsTells(env, o);
    CanonicalMeans(env, o);
  }

  lemma RereadWhole(c: Opts)
    ensures AllOnePiece(c.inputs) ==> Reread(c).inputs == c.inputs
    ensures AllOnePiece(c.follow) ==> Reread(c).follow == c.follow
  {
    if AllOnePiece(c.inputs) {
      WholePieces(c.inputs);
    }
    if AllOnePiece(c.follow) {
      WholePieces(c.follow);
    }
    hide AllPieces;
  }

  lemma ExportIs(env: Env, args: seq<string>, o: Opts)
    requires ParseFlags(env, args) == Some(o) && Accepts(env, o)
    ensures ParseExport(env, args) == Some(JobOf(Canonical(env, o)))
    ensures var c := Canonical(env, o);
      JobOf(c).verb == "" && JobOf(c).out == c.out && (JobOf(c).presync <==> Presync in c.on)
  {
    hide ParseFlags, Accepts, Canonical, Emit, SettingsOf;
  }

  lemma AcceptsTells(env: Env, o: Opts)
    requires Accepts(env, o)
    ensures o.out != "" && EnableOffline !in o.on && SyncWait !in o.on
  {
  }

  /** A character no job may have in a value. */
  predicate IsControl(c: char) { c < ' ' || c == 127 as char }

  /** An export that parses is a job exactly when nothing in it waits for a person, the platform has what it asks for,
      it has a folder, a mode and a time that are read, no value has a control character, every followed input is an
      input, and a profile is only given with the pre-sync. */
  lemma AcceptedWhen(env: Env, args: seq<string>, o: Opts)
    requires ParseFlags(env, args) == Some(o)
    ensures ParseExport(env, args).Some? <==>
      && o.on !! {EnableOffline, SyncWait} && (Outlook in o.on ==> env.outlookOk) && (Presync in o.on ==> env.presyncOk)
      && o.out != "" && env.lower(o.mode) in {"incremental", "full", ""} && (o.since == "" || env.sinceOk(o.since))
      && (forall v, c :: v in [o.out, o.manifest, o.log, o.since, o.profile] + o.inputs + o.follow && c in v ==> !IsControl(c))
      && (forall p :: p in o.follow ==> exists q :: q in o.inputs && env.id(q) == env.id(p))
      && (o.profile == "" || Presync in o.on)
  {
    var vs := [o.out, o.manifest, o.log, o.since, o.profile] + o.inputs + o.follow;
    assert (forall v, c :: v in vs && c in v ==> !IsControl(c)) <==> forall v :: v in vs ==> NoControl(v) by {
      forall v ensures NoControl(v) <==> forall c :: c in v ==> !IsControl(c) {
        NoControlIs(v);
      }
      hide NoControl, IsControl;
    }
    ExportSome(env, args, o);
    hide *;
    FivePlain(o);
    ControlFree([o.out, o.manifest, o.log, o.since, o.profile], o.inputs, o.follow);
    FollowIs(env, o.follow, o.inputs);
  }

  lemma ExportSome(env: Env, args: seq<string>, o: Opts)
    requires ParseFlags(env, args) == Some(o)
    ensures ParseExport(env, args).Some? <==>
      && o.on !! {EnableOffline, SyncWait} && (Outlook in o.on ==> env.outlookOk) && (Presync in o.on ==> env.presyncOk)
      && o.out != "" && env.lower(o.mode) in {"incremental", "full", ""} && (o.since == "" || env.sinceOk(o.since))
      && NoControl(o.out) && NoControl(o.manifest) && NoControl(o.log) && NoControl(o.since) && NoControl(o.profile)
      && AllNoControl(o.inputs) && AllNoControl(o.follow) && FollowOk(env, o.follow, o.inputs)
      && (o.profile == "" || Presync in o.on)
  {
    hide NoControl, FollowOk, JobOf, Canonical, ParseFlags, AllNoControl;
  }

  lemma FivePlain(o: Opts)
    ensures var vs := [o.out, o.manifest, o.log, o.since, o.profile];
      (forall i :: 0 <= i < |vs| ==> NoControl(vs[i])) <==>
      NoControl(o.out) && NoControl(o.manifest) && NoControl(o.log) && NoControl(o.since) && NoControl(o.profile)
  {
    hide NoControl;
    var vs := [o.out, o.manifest, o.log, o.since, o.profile];
    assert vs[0] == o.out && vs[1] == o.manifest && vs[2] == o.log && vs[3] == o.since && vs[4] == o.profile;
  }

  lemma NoControlIs(v: string)
    ensures NoControl(v) <==> forall c :: c in v ==> !IsControl(c)
  {
    forall i | 0 <= i < |v| ensures v[i] in v {
    }
  }

  lemma ControlFree(a: seq<string>, b: seq<string>, c: seq<string>)
    ensures (forall v :: v in a + b + c ==> NoControl(v)) <==>
      (forall i :: 0 <= i < |a| ==> NoControl(a[i])) && AllNoControl(b) && AllNoControl(c)
  {
    hide NoControl;
    forall i | 0 <= i < |a| ensures a[i] in a + b + c {
    }
    forall i | 0 <= i < |b| ensures b[i] in a + b + c {
    }
    forall i | 0 <= i < |c| ensures c[i] in a + b + c {
    }
  }

  lemma FollowIs(env: Env, follow: seq<string>, inputs: seq<string>)
    ensures FollowOk(env, follow, inputs) <==> forall p :: p in follow ==> exists q :: q in inputs && env.id(q) == env.id(p)
  {
    if FollowOk(env, follow, inputs) {
      forall p | p in follow ensures exists q :: q in inputs && env.id(q) == env.id(p) {
        var i :| 0 <= i < |follow| && follow[i] == p;
        var j :| 0 <= j < |inputs| && env.id(inputs[j]) == env.id(follow[i]);
        assert inputs[j] in inputs;
      }
    }
    if forall p :: p in follow ==> exists q :: q in inputs && env.id(q) == env.id(p) {
      forall i | 0 <= i < |follow| ensures exists j :: 0 <= j < |inputs| && env.id(inputs[j]) == env.id(follow[i]) {
        assert follow[i] in follow;
        var q :| q in inputs && env.id(q) == env.id(follow[i]);
        var j :| 0 <= j < |inputs| && inputs[j] == q;
      }
    }
  }

  // ---- and only there

  /** The values of one flag, in order. */
  function ValuesOf(a: Settings, f: Flag): seq<string> {
    if a == [] then []
    else ValuesOf(a[..|a| - 1], f) + (if a[|a| - 1].flag == f then [a[|a| - 1].value] else [])
  }

  lemma ValuesMore(a: Settings, s: Setting<Flag>, f: Flag)
    ensures ValuesOf(a + [s], f) == if s.flag == f then ValuesOf(a, f) + [s.value] else ValuesOf(a, f)
  {
    assert (a + [s])[..|a|] == a;
  }

  lemma ValuesStr(a: Settings, g: Flag, v: string, f: Flag)
    ensures g != f ==> ValuesOf(Str(a, g, v), f) == ValuesOf(a, f)
    ensures g == f ==> ValuesOf(Str(a, g, v), f) == ValuesOf(a, f) + (if v == "" then [] else [v])
  {
    ValuesMore(a, Setting(g, v), f);
    hide ValuesOf;
  }

  lemma ValuesOn(a: Settings, g: Flag, b: bool, f: Flag)
    requires g != f
    ensures ValuesOf(On(a, g, b), f) == ValuesOf(a, f) && ValuesOf(Off(a, g, b), f) == ValuesOf(a, f)
  {
    ValuesMore(a, Setting(g, "true"), f);
    ValuesMore(a, Setting(g, "false"), f);
    hide ValuesOf;
  }

  lemma {:induction false} ValuesEach(a: Settings, g: Flag, vs: seq<string>, f: Flag)
    ensures ValuesOf(Each(a, g, vs), f) == if g == f then ValuesOf(a, f) + vs else ValuesOf(a, f)
  {
    if vs == [] {
      assert ValuesOf(a, f) + [] == ValuesOf(a, f);
    } else {
      var front, last := vs[..|vs| - 1], vs[|vs| - 1];
      ValuesEach(a, g, front, f);
      ValuesMore(Each(a, g, front), Setting(g, last), f);
      assert front + [last] == vs;
      hide ValuesOf;
      assert g == f ==> ValuesOf(a, f) + front + [last] == ValuesOf(a, f) + vs;
    }
  }

  lemma ValuesOutlook(o: Opts, a: Settings, f: Flag)
    requires f == Input || f == FollowLinks || f == LogFile
    ensures ValuesOf(WithOutlook(o, a), f) == ValuesOf(a, f)
  {
    ValuesMore(a, Setting(Outlook, "true"), f);
    ValuesMore(a + [Setting(Outlook, "true")], Setting(Wait, o.wait), f);
    hide ValuesOf;
  }

  lemma ValuesSync(o: Opts, a: Settings, f: Flag)
    requires f == Input || f == FollowLinks || f == LogFile
    ensures ValuesOf(Sync(o, a), f) == ValuesOf(a, f)
  {
    ValuesMore(a, Setting(Presync, "true"), f);
    ValuesStr(a + [Setting(Presync, "true")], Profile, o.profile, f);
    hide ValuesOf;
    hide Str;
  }

  lemma ValuesSources(o: Opts, first: Settings, f: Flag)
    requires f == Input || f == FollowLinks || f == LogFile
    requires ValuesOf(first, f) == []
    ensures ValuesOf(Sources(o, first), f) == if f == Input then o.inputs else if f == FollowLinks then o.follow else []
  {
    hide *;
    var a1 := Str(first, Since, o.since);
    ValuesStr(first, Since, o.since, f);
    var a2 := On(a1, Auto, Auto in o.on);
    ValuesOn(a1, Auto, Auto in o.on, f);
    var a3 := Each(a2, Input, o.inputs);
    ValuesEach(a2, Input, o.inputs, f);
    var a4 := On(a3, CopyFirst, CopyFirst in o.on);
    ValuesOn(a3, CopyFirst, CopyFirst in o.on, f);
    ValuesEach(a4, FollowLinks, o.follow, f);
    SourcesAre(o, first);
    assert [] + o.inputs == o.inputs && [] + o.follow == o.follow;
  }

  lemma SourcesAre(o: Opts, first: Settings)
    ensures Sources(o, first)
      == Each(On(Each(On(Str(first, Since, o.since), Auto, Auto in o.on), Input, o.inputs), CopyFirst, CopyFirst in o.on),
              FollowLinks, o.follow)
  {
  }

  lemma ValuesChoices(o: Opts, first: Settings, f: Flag)
    requires f == Input || f == FollowLinks || f == LogFile
    ensures ValuesOf(Choices(o, first), f) == ValuesOf(first, f)
  {
    var a1 := WithOutlook(o, first);
    ValuesOutlook(o, first, f);
    var a2 := Off(a1, Index, Index in o.on);
    ValuesOn(a1, Index, Index in o.on, f);
    var a3 := Off(a2, Pages, Pages in o.on);
    ValuesOn(a2, Pages, Pages in o.on, f);
    var a4 := On(a3, Raw, Raw in o.on);
    ValuesOn(a3, Raw, Raw in o.on, f);
    ValuesStr(a4, Manifest, o.manifest, f);
    hide ValuesOf;
    hide WithOutlook;
    hide Str;
    hide On;
    hide Off;
  }

  lemma HeadValues(o: Opts, f: Flag)
    requires f == Input || f == FollowLinks || f == LogFile
    ensures ValuesOf(JobHead(o), f) == []
  {
    ValuesMore([], Setting(Out, o.out), f);
    ValuesMore([] + [Setting(Out, o.out)], Setting(Mode, o.mode), f);
    ValuesMore([] + [Setting(Out, o.out)] + [Setting(Mode, o.mode)], Setting(Unattended, "true"), f);
    assert ValuesOf([], f) == [];
    hide ValuesOf;
  }

  /** A job's arguments carry its inputs, its followed inputs and its log as they are. */
  lemma SettingsValue(o: Opts, f: Flag)
    requires f == Input || f == FollowLinks || f == LogFile
    ensures ValuesOf(SettingsOf(o), f)
      == if f == Input then o.inputs else if f == FollowLinks then o.follow else if o.log == "" then [] else [o.log]
  {
    var first := JobHead(o);
    var body := Choices(o, Sources(o, first));
    assert SettingsOf(o) == Sync(o, Str(body, LogFile, o.log));
    hide *;
    HeadValues(o, f);
    ValuesSources(o, first, f);
    ValuesChoices(o, Sources(o, first), f);
    ValuesStr(body, LogFile, o.log, f);
    ValuesSync(o, Str(body, LogFile, o.log), f);
  }

  lemma SettingsValues(o: Opts)
    ensures ValuesOf(SettingsOf(o), Input) == o.inputs && ValuesOf(SettingsOf(o), FollowLinks) == o.follow
    ensures ValuesOf(SettingsOf(o), LogFile) == if o.log == "" then [] else [o.log]
  {
    hide *;
    SettingsValue(o, Input);
    SettingsValue(o, FollowLinks);
    SettingsValue(o, LogFile);
  }

  lemma SameArgs(a: Opts, b: Opts)
    requires JobOf(a).args == JobOf(b).args
    ensures SettingsOf(a) == SettingsOf(b) && a.inputs == b.inputs && a.follow == b.follow && a.log == b.log
  {
    var fs := ExportFlags();
    FlagsDefined(SettingsOf(a));
    FlagsDefined(SettingsOf(b));
    ScanEmit(fs, SettingsOf(a));
    ScanEmit(fs, SettingsOf(b));
    SettingsValues(a);
    SettingsValues(b);
    hide *;
    JobArgs(a);
    JobArgs(b);
  }

  lemma JobArgs(o: Opts)
    ensures JobOf(o).args == Emit(ExportFlags(), SettingsOf(o))
  {
  }

  /** Paths as Unix has them. */
  ghost predicate Rooted(env: Env) {
    && (forall p :: p != "" ==> env.abs(p) != "" && env.abs(p)[0] == '/')
    && (forall p :: p != "" && p[0] == '/' ==> |env.abs(p)| <= |p|)
  }

  lemma {:induction false} PiecesAtLeast(vs: seq<string>)
    requires AllRooted(vs)
    ensures |AllPieces(vs)| >= |vs|
  {
    if vs != [] {
      PiecesAtLeast(vs[..|vs| - 1]);
      RootedPieces(vs[|vs| - 1]);
    }
  }

  lemma {:induction false} AbsConcat(env: Env, a: seq<string>, b: seq<string>)
    ensures AbsAll(env, a + b) == AbsAll(env, a) + AbsAll(env, b)
  {
  }

  lemma OneBack(env: Env, v: string)
    requires Rooted(env) && v != "" && v[0] == '/' && |Pieces(v)| == 1 && Abs(env, Pieces(v)[0]) == v
    ensures OnePiece(v)
  {
    RootedPieces(v);
    PiecesAre(v);
    hide Pieces;
    var q := Pieces(v)[0];
    assert |env.abs(q)| <= |q|;
    assert OnePiece(q);
  }

  lemma BackSplits(env: Env, front: seq<string>, last: string)
    requires AbsAll(env, AllPieces(front) + Pieces(last)) == front + [last]
    requires |AllPieces(front)| >= |front| && |Pieces(last)| >= 1
    ensures AbsAll(env, AllPieces(front)) == front && |Pieces(last)| == 1 && Abs(env, Pieces(last)[0]) == last
  {
    AbsConcat(env, AllPieces(front), Pieces(last));
    hide Pieces;
    hide AllPieces;
    hide Abs;
    var a, b := AbsAll(env, AllPieces(front)), AbsAll(env, Pieces(last));
    assert |a| + |b| == |front| + 1;
    assert (a + b)[..|a|] == a && (front + [last])[..|front|] == front;
    assert (a + b)[|a|..] == b && (front + [last])[|front|..] == [last];
  }

  ghost predicate AllRooted(vs: seq<string>) { forall i :: 0 <= i < |vs| ==> vs[i] != "" && vs[i][0] == '/' }

  lemma Snoc<T>(s: seq<T>)
    requires s != []
    ensures s == s[..|s| - 1] + [s[|s| - 1]]
  {
  }

  lemma LastPieces(vs: seq<string>)
    requires vs != []
    ensures AllPieces(vs) == AllPieces(vs[..|vs| - 1]) + Pieces(vs[|vs| - 1])
  {
    hide Pieces;
  }

  lemma RootedStep(vs: seq<string>)
    requires vs != [] && AllRooted(vs)
    ensures AllRooted(vs[..|vs| - 1]) && vs[|vs| - 1] != "" && vs[|vs| - 1][0] == '/'
  {
  }

  lemma BackStep(env: Env, vs: seq<string>)
    requires Rooted(env) && AbsAll(env, AllPieces(vs)) == vs && AllRooted(vs) && vs != []
    ensures AbsAll(env, AllPieces(vs[..|vs| - 1])) == vs[..|vs| - 1] && AllRooted(vs[..|vs| - 1])
    ensures OnePiece(vs[|vs| - 1])
  {
    hide *;
    var front, last := vs[..|vs| - 1], vs[|vs| - 1];
    RootedStep(vs);
    PiecesAtLeast(front);
    RootedPieces(last);
    LastPieces(vs);
    Snoc(vs);
    BackSplits(env, front, last);
    OneBack(env, last);
  }

  /** Absolute paths that are read back the same were one piece each. */
  lemma {:induction false} SameBack(env: Env, vs: seq<string>)
    requires Rooted(env) && AbsAll(env, AllPieces(vs)) == vs && AllRooted(vs)
    ensures AllOnePiece(vs)
  {
    if vs != [] {
      BackStep(env, vs);
      hide Rooted;
      hide AllPieces;
      hide AbsAll;
      hide OnePiece;
      SameBack(env, vs[..|vs| - 1]);
    }
  }

  lemma AbsRooted(env: Env, ps: seq<string>, vs: seq<string>)
    requires Rooted(env) && vs == AbsAll(env, ps) == AbsAll(env, AllPieces(vs))
    ensures AllRooted(vs)
  {
    forall i | 0 <= i < |vs| ensures vs[i] != "" && vs[i][0] == '/' {
      AllPiecesFilled(vs, i);
    }
  }

  lemma {:induction false} AllPiecesFilled(vs: seq<string>, i: nat)
    requires i < |AllPieces(vs)|
    ensures AllPieces(vs)[i] != ""
  {
    var front, last := vs[..|vs| - 1], vs[|vs| - 1];
    if i < |AllPieces(front)| {
      AllPiecesFilled(front, i);
    } else {
      PiecesAre(last);
      assert OnePiece(Pieces(last)[i - |AllPieces(front)|]);
    }
  }

  /** Job canonicalisation is a fixed point of parsing exactly where every input's and followed input's
      absolute path is one piece of a comma-separated flag. */
  lemma CommandReparsesExactly(env: Env, args: seq<string>, o: Opts)
    requires EnvOk(env) && Rooted(env) && ParseFlags(env, args) == Some(o) && Accepts(env, o)
    ensures var c := Canonical(env, o);
      ParseExport(env, JobOf(c).args) == ParseExport(env, args) <==> AllOnePiece(c.inputs) && AllOnePiece(c.follow)
  {
    var c := Canonical(env, o);
    assert ParseExport(env, args) == Some(JobOf(c));
    hide ParseExport;
    hide ParseFlags;
    hide Accepts;
    hide Canonical;
    hide JobOf;
    if AllOnePiece(c.inputs) && AllOnePiece(c.follow) {
      CommandReparses(env, args, o);
    }
    if ParseExport(env, JobOf(c).args) == ParseExport(env, args) {
      CanonicalKept(env, args, o);
      OnlyThere(env, o);
    }
  }

  lemma ParsedAs(env: Env, args: seq<string>, o: Opts, j: Job)
    requires ParseFlags(env, args) == Some(o) && ParseExport(env, args) == Some(j)
    ensures j == JobOf(Canonical(env, o))
  {
    hide ParseFlags;
    hide Accepts;
    hide Canonical;
    hide JobOf;
  }

  lemma OnlyThere(env: Env, o: Opts)
    requires Rooted(env) && Kept(env, Canonical(env, o))
    requires ParseExport(env, JobOf(Canonical(env, o)).args) == Some(JobOf(Canonical(env, o)))
    ensures AllOnePiece(Canonical(env, o).inputs) && AllOnePiece(Canonical(env, o).follow)
  {
    var c := Canonical(env, o);
    ReparseIs(env, c);
    var c' := Canonical(env, Reread(c));
    ParsedAs(env, JobOf(c).args, Reread(c), JobOf(c));
    hide ParseExport;
    hide ParseFlags;
    hide JobOf;
    SameArgs(c', c);
    hide AllPieces;
    AbsRooted(env, o.inputs, c.inputs);
    AbsRooted(env, o.follow, c.follow);
    SameBack(env, c.inputs);
    SameBack(env, c.follow);
  }
}
