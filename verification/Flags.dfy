/** Command-line flags: how an argument list is scanned, how settings are printed as one, and the repeatable
    comma-separated flag. */
module Flags {
  import opened Wrappers
  import opened Text

  /** A defined flag, and whether it is a bool flag, which takes no argument. */
  datatype Def<F> = Def(flag: F, isBool: bool)

  datatype Setting<F> = Setting(flag: F, value: string)

  /** The settings in order and the arguments after them; Refused for a list the flag package refuses. */
  datatype Scanned<F> = Refused | Scanned(settings: seq<Setting<F>>, rest: seq<string>)

  /** The flags of a command: which flag a name is, and a flag's name. */
  datatype FlagSet<!F> = FlagSet(lookup: string -> Option<Def<F>>, name: F -> string)

  /** The place of the first '=' from i on, |s| when there is none. */
  function EqualsAt(s: string, i: nat): (r: nat)
    requires i <= |s|
    ensures i <= r <= |s| && '=' !in s[i..r] && (r < |s| ==> s[r] == '=')
    decreases |s| - i
  {
    if i == |s| || s[i] == '=' then i
    else
      assert forall r :: i < r <= |s| ==> s[i..r] == [s[i]] + s[i + 1..r];
      EqualsAt(s, i + 1)
  }

  function Prepend<F>(s: Setting<F>, r: Scanned<F>): Scanned<F> {
    if r.Refused? then Refused else Scanned([s] + r.settings, r.rest)
  }

  /** Go's flag package: -name, --name, -name=value; a value flag takes the next argument; "--", or anything
      that is no flag, ends the flags. */
  function Scan<F>(fs: FlagSet<F>, args: seq<string>): Scanned<F>
    decreases |args|
  {
    if args == [] then Scanned([], [])
    else
      var s := args[0];
      if |s| < 2 || s[0] != '-' then Scanned([], args)
      else if s == "--" then Scanned([], args[1..])
      else
        var flag := if s[1] == '-' then s[2..] else s[1..];
        if flag == "" || flag[0] == '-' || flag[0] == '=' then Refused
        else
          var e := EqualsAt(flag, 1);
          var name, has := flag[..e], e < |flag|;
          match fs.lookup(name)
          case None => Refused
          case Some(Def(f, true)) => Prepend(Setting(f, if has then flag[e + 1..] else "true"), Scan(fs, args[1..]))
          case Some(Def(f, false)) =>
            if has then Prepend(Setting(f, flag[e + 1..]), Scan(fs, args[1..]))
            else if |args| == 1 then Refused
            else Prepend(Setting(f, args[1]), Scan(fs, args[2..]))
  }

  predicate IsBool<F(==)>(fs: FlagSet<F>, f: F) { fs.lookup(fs.name(f)) == Some(Def(f, true)) }

  function EmitOne<F(==)>(fs: FlagSet<F>, s: Setting<F>): (r: seq<string>)
    ensures |r| > 0
  {
    var name := fs.name(s.flag);
    if IsBool(fs, s.flag) then
      if s.value == "true" then ["-" + name] else ["-" + name + "=" + s.value]
    else ["-" + name, s.value]
  }

  /** The settings as arguments. */
  function Emit<F(==)>(fs: FlagSet<F>, settings: seq<Setting<F>>): seq<string> {
    if settings == [] then [] else EmitOne(fs, settings[0]) + Emit(fs, settings[1..])
  }

  /** A name flags can have. */
  predicate FlagName(name: string) { name != "" && name[0] != '-' && '=' !in name }

  /** A flag the set defines, under a name of its own. */
  predicate Defined<F(==)>(fs: FlagSet<F>, f: F) {
    FlagName(fs.name(f)) && fs.lookup(fs.name(f)).Some? && fs.lookup(fs.name(f)).value.flag == f
  }

  ghost predicate AllDefined<F>(fs: FlagSet<F>, settings: seq<Setting<F>>) {
    forall i :: 0 <= i < |settings| ==> Defined(fs, settings[i].flag)
  }

  lemma EqualsPlain(name: string, tail: string)
    requires FlagName(name)
    ensures EqualsAt(name, 1) == |name|
    ensures EqualsAt(name + "=" + tail, 1) == |name|
  {
    var e := EqualsAt(name, 1);
    var s := name + "=" + tail;
    forall k | 1 <= k < |name| ensures s[k] == name[k] && name[k] != '=' {
      assert name[k] in name;
    }
    assert s[|name|] == '=';
  }

  lemma ScanOne<F>(fs: FlagSet<F>, s: Setting<F>, rest: seq<string>)
    requires Defined(fs, s.flag)
    ensures Scan(fs, EmitOne(fs, s) + rest) == Prepend(s, Scan(fs, rest))
  {
    var name := fs.name(s.flag);
    EqualsPlain(name, s.value);
    hide EqualsAt;
    var args := EmitOne(fs, s) + rest;
    if IsBool(fs, s.flag) {
      assert args[1..] == rest;
      if s.value == "true" {
        assert args[0][1..] == name && name[..|name|] == name;
      } else {
        var flag := args[0][1..];
        assert flag == name + "=" + s.value;
        assert flag[..|name|] == name && flag[|name| + 1..] == s.value;
      }
    } else {
      assert args[2..] == rest;
      assert args[0][1..] == name && name[..|name|] == name;
    }
  }

  /** A flag may be given with two dashes. */
  lemma DashesAreOne<F>(fs: FlagSet<F>, flag: string, rest: seq<string>)
    requires flag != "" && flag[0] != '-'
    ensures Scan(fs, ["--" + flag] + rest) == Scan(fs, ["-" + flag] + rest)
  {
    var two, one := ["--" + flag] + rest, ["-" + flag] + rest;
    assert two[0][2..] == flag && one[0][1..] == flag;
    assert two[1..] == rest && one[1..] == rest;
    assert rest != [] ==> two[1] == one[1] && two[2..] == one[2..];
    hide EqualsAt;
  }

  /** What is printed is scanned back exactly. */
  lemma {:induction false} ScanEmit<F>(fs: FlagSet<F>, settings: seq<Setting<F>>)
    requires AllDefined(fs, settings)
    ensures Scan(fs, Emit(fs, settings)) == Scanned(settings, [])
  {
    if settings != [] {
      ScanEmit(fs, settings[1..]);
      ScanOne(fs, settings[0], Emit(fs, settings[1..]));
      assert settings == [settings[0]] + settings[1..];
      hide Scan;
      hide EmitOne;
    }
  }

  // ---- the comma-separated flag

  /** Unicode white space, as unicode.IsSpace has it. */
  predicate IsSpace(c: char) {
    || '\t' <= c <= '\r' || c == ' ' || c == '\U{0085}' || c == '\U{00A0}' || c == '\U{1680}'
    || '\U{2000}' <= c <= '\U{200A}' || c == '\U{2028}' || c == '\U{2029}' || c == '\U{202F}'
    || c == '\U{205F}' || c == '\U{3000}'
  }

  function TrimSpace(s: string): (r: string)
    ensures |r| <= |s| && (r != "" ==> !IsSpace(r[0]) && !IsSpace(r[|r| - 1]))
    ensures |r| == |s| ==> r == s
    decreases |s|
  {
    if s == "" then ""
    else if IsSpace(s[0]) then TrimSpace(s[1..])
    else if IsSpace(s[|s| - 1]) then TrimSpace(s[..|s| - 1])
    else s
  }

  function Trimmed(parts: seq<string>): seq<string> {
    if parts == [] then []
    else Trimmed(parts[..|parts| - 1]) + (if TrimSpace(parts[|parts| - 1]) == "" then [] else [TrimSpace(parts[|parts| - 1])])
  }

  /** The values one use of the flag adds. */
  function Pieces(v: string): seq<string> { Trimmed(Split(v, ',')) }

  /** stringSlice.Set. */
  method SetList(s: seq<string>, v: string) returns (r: seq<string>)
    ensures r == s + Pieces(v)
  {
    r := s;
    var parts := Split(v, ',');
    for i := 0 to |parts|
      invariant r == s + Trimmed(parts[..i])
    {
      assert parts[..i + 1][..i] == parts[..i];
      var p := TrimSpace(parts[i]);
      if p != "" {
        r := r + [p];
      }
    }
    assert parts[..|parts|] == parts;
  }

  /** A value that is one piece, itself: no comma, no space at either end. */
  predicate OnePiece(p: string) { p != "" && ',' !in p && !IsSpace(p[0]) && !IsSpace(p[|p| - 1]) }

  lemma OnePieceIs(p: string)
    requires OnePiece(p)
    ensures Pieces(p) == [p]
  {
    SplitPlain(p, ',');
    assert TrimSpace(p) == p;
    assert [p][..0] == [];
    assert Trimmed([p]) == Trimmed([]) + [p];
  }

  lemma {:induction false} TrimmedAre(parts: seq<string>, i: nat)
    requires i < |Trimmed(parts)| && forall k :: 0 <= k < |parts| ==> ',' !in parts[k]
    ensures OnePiece(Trimmed(parts)[i])
    decreases |parts|
  {
    var front := parts[..|parts| - 1];
    if i < |Trimmed(front)| {
      TrimmedAre(front, i);
    } else {
      TrimKeeps(parts[|parts| - 1]);
    }
  }

  lemma {:induction false} TrimKeeps(s: string)
    ensures forall c :: c in TrimSpace(s) ==> c in s
    decreases |s|
  {
    if s != "" {
      if IsSpace(s[0]) {
        TrimKeeps(s[1..]);
      } else if IsSpace(s[|s| - 1]) {
        TrimKeeps(s[..|s| - 1]);
      }
    }
  }

  /** Every piece of a value is one piece. */
  lemma PiecesAre(v: string)
    ensures forall i :: 0 <= i < |Pieces(v)| ==> OnePiece(Pieces(v)[i])
  {
    forall i | 0 <= i < |Pieces(v)| ensures OnePiece(Pieces(v)[i]) {
      TrimmedAre(Split(v, ','), i);
    }
  }

  // ---- when a value is one piece

  lemma {:induction false} SplitHead(v: string)
    requires v != "" && v[0] != ','
    ensures var h := Split(v, ',')[0];
      h != "" && h[0] == v[0] && |h| <= |v| && (|h| == |v| ==> h == v)
  {
    var rest := Split(v[1..], ',');
    assert Split(v, ',')[0] == [v[0]] + rest[0];
    HeadBounds(v[1..]);
    assert v == [v[0]] + v[1..];
  }

  lemma {:induction false} HeadBounds(v: string)
    ensures |Split(v, ',')[0]| <= |v| && (|Split(v, ',')[0]| == |v| ==> Split(v, ',')[0] == v)
  {
    if v != "" {
      HeadBounds(v[1..]);
      assert v == [v[0]] + v[1..];
    }
  }

  lemma {:induction false} TrimmedHead(parts: seq<string>)
    requires parts != [] && TrimSpace(parts[0]) != ""
    ensures Trimmed(parts) != [] && Trimmed(parts)[0] == TrimSpace(parts[0])
  {
    if |parts| > 1 {
      TrimmedHead(parts[..|parts| - 1]);
    } else {
      assert parts[..0] == [];
    }
  }

  lemma {:induction false} TrimStart(s: string)
    requires s != "" && !IsSpace(s[0])
    ensures TrimSpace(s) != "" && TrimSpace(s)[0] == s[0]
    decreases |s|
  {
    if IsSpace(s[|s| - 1]) {
      TrimStart(s[..|s| - 1]);
    }
  }

  /** An absolute path's first piece begins as it does, and is the whole path or shorter. */
  lemma RootedPieces(v: string)
    requires v != "" && v[0] == '/'
    ensures Pieces(v) != [] && Pieces(v)[0] != "" && Pieces(v)[0][0] == '/'
    ensures |Pieces(v)[0]| <= |v| && (|Pieces(v)[0]| == |v| ==> Pieces(v)[0] == v)
  {
    SplitHead(v);
    TrimStart(Split(v, ',')[0]);
    TrimmedHead(Split(v, ','));
  }
}
