/** Fold-unique names for the files of one directory: the counter that remembers where to go on, and
    the plain scan it stands for. Folding and the construction of candidates are parameters. */
module UniqueNames {
  import opened FreeNumber
  import opened Text

  /** `plain` replaces a short-name alias by its hashed form, `fold` is the case folding, and
      `cand(name, i)` is the name with " (i)" before its extension. */
  datatype Naming = Naming(plain: string -> string, fold: string -> string, cand: (string, nat) -> string)

  /** A directory's names: the fold keys taken, and the number to try next for a key. */
  datatype Names = Names(used: set<string>, next: map<string, nat>)

  /** The fold keys of a name's candidates, by number. */
  function Cands(nm: Naming, name: string): nat -> string {
    (i: nat) => nm.fold(nm.cand(name, i))
  }

  /** Different numbers give names that fold differently; the first number tried is 2. */
  ghost predicate Numbered(nm: Naming) {
    forall name :: Tells(Cands(nm, name), 2)
  }

  /** Names that fold alike have candidates that fold alike. */
  ghost predicate Congruent(nm: Naming) {
    forall a, b, i :: nm.fold(a) == nm.fold(b) ==> Cands(nm, a)(i) == Cands(nm, b)(i)
  }

  function Start(s: Names, key: string): (r: nat)
    ensures r >= 2
  {
    if key in s.next && s.next[key] > 2 then s.next[key] else 2
  }

  /** What a call gives: the name, the names after it, and how many candidates it tried. */
  datatype Given = Given(name: string, names: Names, tries: nat)

  function Give(nm: Naming, s: Names, asked: string): Given {
    var name := nm.plain(asked);
    var key := nm.fold(name);
    if key !in s.used then Given(name, s.(used := s.used + {key}), 0)
    else
      var start := Start(s, key);
      var i := FirstFree(Cands(nm, name), s.used, start);
      Given(nm.cand(name, i), Names(s.used + {Cands(nm, name)(i)}, s.next[key := i + 1]), i + 1 - start)
  }

  /** ceUniqueName: the scan from 2, which is a call with an empty memory. */
  function GiveNaively(nm: Naming, used: set<string>, asked: string): Given {
    Give(nm, Names(used, map[]), asked)
  }

  /** The names a directory's writer has given. */
  class NameSet {
    var used: set<string>
    var next: map<string, nat>

    function View(): Names
      reads this
    {
      Names(used, next)
    }

    /** ceUniqueNameFrom. */
    method UniqueNameFrom(nm: Naming, asked: string) returns (r: string, ghost tries: nat)
      requires Numbered(nm)
      modifies this
      ensures Given(r, View(), tries) == Give(nm, old(View()), asked)
    {
      var name := nm.plain(asked);
      var key := nm.fold(name);
      if key !in used {
        used := used + {key};
        return name, 0;
      }
      var start := if key in next && next[key] > 2 then next[key] else 2;
      var i := Search(Cands(nm, name), used, start);
      r := nm.cand(name, i);
      used := used + {nm.fold(r)};
      next := next[key := i + 1];
      tries := i + 1 - start;
    }
  }

  // ---- one call

  /** A name never given before, by its fold key, and the directory's keys grow by exactly that key. */
  lemma GivenIsFresh(nm: Naming, s: Names, asked: string)
    requires Numbered(nm)
    ensures var g := Give(nm, s, asked);
      nm.fold(g.name) !in s.used && g.names.used == s.used + {nm.fold(g.name)}
  {
    var name := nm.plain(asked);
    FirstFreeIsFree(Cands(nm, name), s.used, Start(s, nm.fold(name)));
  }

  /** The memory changes nothing about a call exactly when every number it skips is taken. */
  lemma MemoryIsHarmless(nm: Naming, s: Names, asked: string)
    requires Numbered(nm)
    ensures var name := nm.plain(asked);
      Give(nm, s, asked).name == GiveNaively(nm, s.used, asked).name
      <==> (nm.fold(name) in s.used ==> TakenBetween(Cands(nm, name), s.used, 2, Start(s, nm.fold(name))))
  {
    var name := nm.plain(asked);
    var start := Start(s, nm.fold(name));
    FirstFreeIsFree(Cands(nm, name), s.used, start);
    FirstFreeIsFree(Cands(nm, name), s.used, 2);
    var i, j := FirstFree(Cands(nm, name), s.used, start), FirstFree(Cands(nm, name), s.used, 2);
    if nm.cand(name, i) == nm.cand(name, j) {
      assert Cands(nm, name)(i) == Cands(nm, name)(j);
    }
    if nm.fold(name) in s.used && TakenBetween(Cands(nm, name), s.used, 2, start) {
      FirstFreeUnique(Cands(nm, name), s.used, 2, i);
    }
  }

  // ---- call sequences

  /** Every number below the one remembered for a key is taken, for every name that folds to it. */
  ghost predicate Inv(nm: Naming, s: Names) {
    forall name :: nm.fold(name) in s.next ==> TakenBetween(Cands(nm, name), s.used, 2, s.next[nm.fold(name)])
  }

  lemma GiveKeepsInv(nm: Naming, s: Names, asked: string)
    requires Numbered(nm) && Congruent(nm) && Inv(nm, s)
    ensures Inv(nm, Give(nm, s, asked).names)
  {
    var name := nm.plain(asked);
    var key, after := nm.fold(name), Give(nm, s, asked).names;
    if key in s.used {
      var start := Start(s, key);
      FirstFreeIsFree(Cands(nm, name), s.used, start);
      hide FirstFree;
      var i := FirstFree(Cands(nm, name), s.used, start);
      assert TakenBetween(Cands(nm, name), after.used, 2, i + 1) by {
        assert TakenBetween(Cands(nm, name), s.used, 2, start);
      }
      forall other, k | nm.fold(other) in after.next && 2 <= k < after.next[nm.fold(other)]
        ensures Cands(nm, other)(k) in after.used
      {
        if nm.fold(other) == key {
          assert Cands(nm, other)(k) == Cands(nm, name)(k);
        } else {
          assert TakenBetween(Cands(nm, other), s.used, 2, s.next[nm.fold(other)]);
        }
      }
    } else {
      forall other | nm.fold(other) in s.next
        ensures TakenBetween(Cands(nm, other), after.used, 2, s.next[nm.fold(other)])
      {
        assert TakenBetween(Cands(nm, other), s.used, 2, s.next[nm.fold(other)]);
      }
    }
  }

  function Run(nm: Naming, s: Names, asked: seq<string>): Names {
    if asked == [] then s else Give(nm, Run(nm, s, asked[..|asked| - 1]), asked[|asked| - 1]).names
  }

  /** The names given for a list of names asked for. */
  function AllGiven(nm: Naming, s: Names, asked: seq<string>): seq<string> {
    if asked == [] then []
    else AllGiven(nm, s, asked[..|asked| - 1]) + [Give(nm, Run(nm, s, asked[..|asked| - 1]), asked[|asked| - 1]).name]
  }

  function RunNaively(nm: Naming, used: set<string>, asked: seq<string>): set<string> {
    if asked == [] then used
    else GiveNaively(nm, RunNaively(nm, used, asked[..|asked| - 1]), asked[|asked| - 1]).names.used
  }

  function AllGivenNaively(nm: Naming, used: set<string>, asked: seq<string>): seq<string> {
    if asked == [] then []
    else
      AllGivenNaively(nm, used, asked[..|asked| - 1])
      + [GiveNaively(nm, RunNaively(nm, used, asked[..|asked| - 1]), asked[|asked| - 1]).name]
  }

  function Keys(nm: Naming, names: seq<string>): set<string> {
    if names == [] then {} else Keys(nm, names[..|names| - 1]) + {nm.fold(names[|names| - 1])}
  }

  ghost predicate FoldDistinct(nm: Naming, names: seq<string>) {
    forall i, j :: 0 <= i < j < |names| ==> nm.fold(names[i]) != nm.fold(names[j])
  }

  lemma {:induction false} KeysAre(nm: Naming, names: seq<string>, i: nat)
    requires i < |names|
    ensures nm.fold(names[i]) in Keys(nm, names)
    decreases |names|
  {
    if i < |names| - 1 {
      KeysAre(nm, names[..|names| - 1], i);
    }
  }

  /** Over any list of names: the names given fold differently from each other and from those the
      directory held, and the keys taken grow by exactly theirs. */
  lemma {:induction false} AllGivenAreFresh(nm: Naming, s: Names, asked: seq<string>)
    requires Numbered(nm)
    ensures var given := AllGiven(nm, s, asked);
      && |given| == |asked| && FoldDistinct(nm, given)
      && Keys(nm, given) !! s.used && Run(nm, s, asked).used == s.used + Keys(nm, given)
  {
    if asked != [] {
      var front := asked[..|asked| - 1];
      var before, given := AllGiven(nm, s, front), AllGiven(nm, s, asked);
      AllGivenAreFresh(nm, s, front);
      GivenIsFresh(nm, Run(nm, s, front), asked[|asked| - 1]);
      hide Give;
      assert given[..|given| - 1] == before;
      forall i | 0 <= i < |before| ensures nm.fold(before[i]) in Keys(nm, before) {
        KeysAre(nm, before, i);
      }
    }
  }

  lemma {:induction false} RunKeepsInv(nm: Naming, used: set<string>, asked: seq<string>)
    requires Numbered(nm) && Congruent(nm)
    ensures Inv(nm, Run(nm, Names(used, map[]), asked))
  {
    if asked != [] {
      RunKeepsInv(nm, used, asked[..|asked| - 1]);
      GiveKeepsInv(nm, Run(nm, Names(used, map[]), asked[..|asked| - 1]), asked[|asked| - 1]);
    }
  }

  /** The remembering counter refines the plain scan: over any list of names, the same names are given. */
  lemma {:induction false} MemoryRefinesScan(nm: Naming, used: set<string>, asked: seq<string>)
    requires Numbered(nm) && Congruent(nm)
    ensures AllGiven(nm, Names(used, map[]), asked) == AllGivenNaively(nm, used, asked)
    ensures Run(nm, Names(used, map[]), asked).used == RunNaively(nm, used, asked)
  {
    if asked != [] {
      var front, last := asked[..|asked| - 1], asked[|asked| - 1];
      MemoryRefinesScan(nm, used, front);
      RunKeepsInv(nm, used, front);
      var s := Run(nm, Names(used, map[]), front);
      var name := nm.plain(last);
      assert nm.fold(name) in s.next ==> TakenBetween(Cands(nm, name), s.used, 2, s.next[nm.fold(name)]);
      MemoryIsHarmless(nm, s, last);
      GivenIsFresh(nm, s, last);
      GivenIsFresh(nm, Names(s.used, map[]), last);
    }
  }

  // ---- the cost

  /** The candidates tried, over a run, for names that fold to a key. */
  function TriesFor(nm: Naming, s: Names, asked: seq<string>, key: string): nat {
    if asked == [] then 0
    else
      var front, last := asked[..|asked| - 1], asked[|asked| - 1];
      TriesFor(nm, s, front, key)
      + (if nm.fold(nm.plain(last)) == key then Give(nm, Run(nm, s, front), last).tries else 0)
  }

  lemma {:induction false} TriesAreCounted(nm: Naming, used: set<string>, asked: seq<string>, key: string)
    requires Numbered(nm)
    ensures var s := Run(nm, Names(used, map[]), asked);
      && (key in s.next ==> s.next[key] > 2)
      && TriesFor(nm, Names(used, map[]), asked, key) == if key in s.next then s.next[key] - 2 else 0
  {
    if asked != [] {
      var front, last := asked[..|asked| - 1], asked[|asked| - 1];
      TriesAreCounted(nm, used, front, key);
      var s := Run(nm, Names(used, map[]), front);
      var name := nm.plain(last);
      FirstFreeIsFree(Cands(nm, name), s.used, Start(s, nm.fold(name)));
      hide FirstFree;
    }
  }

  lemma {:induction false} TakenAreMany(key: nat -> string, used: set<string>, hi: nat)
    requires Tells(key, 2) && TakenBetween(key, used, 2, hi) && hi >= 2
    ensures hi - 2 <= |used|
    decreases hi
  {
    if hi > 2 {
      TakenAreMany(key, used - {key(hi - 1)}, hi - 1);
    }
  }

  /** All the calls for names of one fold key together try no more candidates than the directory has
      names: n equal names cost a linear number of tries, not a quadratic one. */
  lemma TriesAreLinear(nm: Naming, used: set<string>, asked: seq<string>, name: string)
    requires Numbered(nm) && Congruent(nm)
    ensures TriesFor(nm, Names(used, map[]), asked, nm.fold(name)) <= |RunNaively(nm, used, asked)|
  {
    var s := Run(nm, Names(used, map[]), asked);
    TriesAreCounted(nm, used, asked, nm.fold(name));
    RunKeepsInv(nm, used, asked);
    MemoryRefinesScan(nm, used, asked);
    if nm.fold(name) in s.next {
      TakenAreMany(Cands(nm, name), s.used, s.next[nm.fold(name)]);
    }
  }

  // ---- where folding is not congruent

  const MAX_BYTES := 255
  const VE := '\U{0432}'
  const ROUNDED_VE := '\U{1C80}'

  /** How many bytes a character takes in UTF-8. */
  function Utf8(c: char): nat {
    if c as int < 0x80 then 1 else if c as int < 0x800 then 2 else if c as int < 0x10000 then 3 else 4
  }

  function Bytes(s: string): nat { if s == "" then 0 else Bytes(s[..|s| - 1]) + Utf8(s[|s| - 1]) }

  /** truncateBytes: the longest beginning of so many bytes. */
  function CutTo(s: string, max: int): string { if s == "" || Bytes(s) <= max then s else CutTo(s[..|s| - 1], max) }

  function TrimEnd(s: string): string {
    if s != "" && (s[|s| - 1] == ' ' || s[|s| - 1] == '.') then TrimEnd(s[..|s| - 1]) else s
  }

  /** What JoinSuffix puts before the suffix. */
  function Base(name: string, suffix: string, max: int): string {
    if Bytes(name) + Bytes(suffix) <= max then name else TrimEnd(CutTo(name, max - Bytes(suffix)))
  }

  /** Where the extension begins: at the last dot, at the end when there is none but a first. */
  function ExtAt(s: string, i: nat): (r: nat)
    requires i <= |s|
    ensures r < |s| ==> 1 <= r < i && s[r] == '.'
    ensures r <= |s| && forall k :: 1 <= k < i && (r < |s| ==> r < k) ==> s[k] != '.'
  {
    if i <= 1 then |s| else if s[i - 1] == '.' then i - 1 else ExtAt(s, i - 1)
  }

  function Suffix(i: nat): string { " (" + Decimal(i) + ")" }

  /** A stem, a suffix and an extension, within the bytes a file system takes. */
  function Fitted(stem: string, suffix: string, ext: string): string {
    Base(stem, suffix, MAX_BYTES - Bytes(ext)) + suffix + ext
  }

  /** The candidate with a number. */
  function Candidate(name: string, i: nat): string {
    var at := ExtAt(name, |name|);
    Fitted(name[..at], Suffix(i), name[at..])
  }

  /** Folding as far as one pair of letters goes: U+1C80, of three bytes, folds to U+0432, of two, and both are
      as they are in NFC. */
  function FoldVe(s: string): (r: string)
    ensures |r| == |s| && forall i :: 0 <= i < |s| ==> r[i] == if s[i] == ROUNDED_VE then VE else s[i]
  {
    if s == "" then "" else FoldVe(s[..|s| - 1]) + [if s[|s| - 1] == ROUNDED_VE then VE else s[|s| - 1]]
  }

  function ByteNaming(): Naming { Naming(name => name, FoldVe, Candidate) }

  lemma FoldConcat(a: string, b: string)
    ensures FoldVe(a + b) == FoldVe(a) + FoldVe(b)
  {
  }

  lemma FoldSuffix(i: nat)
    ensures FoldVe(Suffix(i)) == Suffix(i)
  {
  }

  lemma FoldThree(a: string, i: nat, c: string)
    ensures FoldVe(a + Suffix(i) + c) == FoldVe(a) + Suffix(i) + FoldVe(c)
  {
    FoldConcat(a + Suffix(i), c);
    FoldConcat(a, Suffix(i));
    FoldSuffix(i);
    hide *;
  }

  lemma FoldCandidate(name: string, i: nat) returns (base: string, ext: string)
    ensures ext == name[ExtAt(name, |name|)..]
    ensures FoldVe(Candidate(name, i)) == base + Suffix(i) + FoldVe(ext)
  {
    hide FoldVe, Suffix, Base, Bytes;
    var at := ExtAt(name, |name|);
    ext := name[at..];
    var front := Base(name[..at], Suffix(i), MAX_BYTES - Bytes(ext));
    base := FoldVe(front);
    FoldThree(front, i, ext);
  }

  lemma TailTells(x: string, d: string, y: string, e: string, t: string)
    requires (forall i :: 0 <= i < |d| ==> IsDigit(d[i])) && (forall i :: 0 <= i < |e| ==> IsDigit(e[i]))
    requires x + (" (" + d + ")") + t == y + (" (" + e + ")") + t
    ensures d == e
  {
    var s, s' := x + (" (" + d + ")") + t, y + (" (" + e + ")") + t;
    var n := |s| - |t| - 1;
    assert s[n - |d| - 1] == '(' && s'[n - |e| - 1] == '(';
    assert s[n - |d|..n] == d && s'[n - |e|..n] == e;
    assert forall k :: n - |d| <= k < n ==> s[k] == d[k - (n - |d|)];
    assert forall k :: n - |e| <= k < n ==> s'[k] == e[k - (n - |e|)];
  }

  lemma CandidatesTell(name: string, i: nat, j: nat)
    requires FoldVe(Candidate(name, i)) == FoldVe(Candidate(name, j))
    ensures i == j
  {
    var x, ext := FoldCandidate(name, i);
    var y, ext' := FoldCandidate(name, j);
    hide FoldVe, Candidate;
    TailTells(x, Decimal(i), y, Decimal(j), FoldVe(ext));
    DecimalTells(i, j);
  }

  function Rep(c: char, n: nat): (r: string)
    ensures |r| == n && forall i :: 0 <= i < n ==> r[i] == c
  {
    if n == 0 then "" else Rep(c, n - 1) + [c]
  }

  lemma {:induction false} RepBytes(c: char, n: nat)
    ensures Bytes(Rep(c, n)) == n * Utf8(c)
  {
    hide Utf8;
    if n > 0 {
      assert (n - 1) * Utf8(c) + Utf8(c) == n * Utf8(c);
      RepBytes(c, n - 1);
      assert Rep(c, n)[..n - 1] == Rep(c, n - 1);
    }
  }

  lemma {:induction false} RepCut(c: char, n: nat, m: nat, max: nat)
    requires m <= n && m * Utf8(c) <= max < (m + 1) * Utf8(c)
    ensures CutTo(Rep(c, n), max) == Rep(c, m)
    decreases n
  {
    RepBytes(c, n);
    if m < n {
      assert n * Utf8(c) >= (m + 1) * Utf8(c);
      assert Rep(c, n)[..n - 1] == Rep(c, n - 1);
      RepCut(c, n - 1, m, max);
    }
  }

  lemma {:induction false} NoExtension(c: char, n: nat, i: nat)
    requires c != '.' && i <= n
    ensures ExtAt(Rep(c, n), i) == n
    decreases i
  {
    if i > 1 {
      NoExtension(c, n, i - 1);
    }
  }

  lemma Whole(s: string)
    ensures s[..|s|] == s && s[|s|..] == "" && Bytes("") == 0
  {
  }

  lemma PlainCandidate(name: string, i: nat)
    requires ExtAt(name, |name|) == |name| && 2 <= i <= 3
    ensures Candidate(name, i) == (if Bytes(name) <= 251 then name else TrimEnd(CutTo(name, 251))) + Suffix(i)
  {
    SuffixBytes(i);
    Whole(name);
    PlainFitted(name, Suffix(i));
    hide Bytes, CutTo, TrimEnd, ExtAt, Suffix, Fitted;
  }

  lemma PlainFitted(name: string, suffix: string)
    requires Bytes(suffix) == 4
    ensures Fitted(name, suffix, "") == (if Bytes(name) <= 251 then name else TrimEnd(CutTo(name, 251))) + suffix
  {
    Whole("");
    hide Bytes, CutTo, TrimEnd;
    assert Base(name, suffix, 255) + suffix + "" == Base(name, suffix, 255) + suffix;
  }

  /** The candidates of 85 letters of two and of three bytes each, both within the limit as they are. */
  lemma LetterCandidates(i: nat)
    requires 2 <= i <= 3
    ensures Candidate(Rep(VE, 85), i) == Rep(VE, 85) + Suffix(i)
    ensures Candidate(Rep(ROUNDED_VE, 85), i) == Rep(ROUNDED_VE, 83) + Suffix(i)
  {
    NoExtension(VE, 85, 85);
    NoExtension(ROUNDED_VE, 85, 85);
    RepBytes(VE, 85);
    RepBytes(ROUNDED_VE, 85);
    assert Utf8(VE) == 2 && Utf8(ROUNDED_VE) == 3;
    RepCut(ROUNDED_VE, 85, 83, 251);
    assert TrimEnd(Rep(ROUNDED_VE, 83)) == Rep(ROUNDED_VE, 83);
    hide *;
    PlainCandidate(Rep(VE, 85), i);
    PlainCandidate(Rep(ROUNDED_VE, 85), i);
  }

  lemma SuffixBytes(i: nat)
    requires 2 <= i <= 3
    ensures Suffix(i) == " (" + ["0123456789"[i]] + ")" && Bytes(Suffix(i)) == 4
  {
    var s := Suffix(i);
    assert s[..3] == " (" + ["0123456789"[i]] && s[..3][..2] == " (" && s[..3][..2][..1] == " ";
    assert Bytes(" ") == 1 by {
      assert " "[..0] == "";
    }
    assert Bytes(" (") == 2 && Bytes(s[..3]) == 3;
  }

  lemma FoldLetters(n: nat)
    ensures FoldVe(Rep(VE, n)) == Rep(VE, n) && FoldVe(Rep(ROUNDED_VE, n)) == Rep(VE, n)
  {
  }

  lemma FoldAfter(letters: string, i: nat)
    requires FoldVe(letters) == letters
    ensures FoldVe(letters + Suffix(i)) == letters + Suffix(i)
  {
    FoldConcat(letters, Suffix(i));
    FoldSuffix(i);
  }

  lemma Apart(x: string, y: string, z: string, i: nat)
    requires 2 <= i <= 3 && |x| == 83 && |y| == |z| - 4 == 85
    ensures |FoldVe(x + Suffix(i))| == 87 && FoldVe(x + Suffix(i)) !in {y, z}
  {
    SuffixBytes(i);
    hide Suffix;
  }

  /** Of two letters that fold alike, what the candidates fold to. */
  lemma LetterKeys(a: string, b: string, a2: string, b2: string, b3: string)
    requires a == Rep(VE, 85) && b == Rep(ROUNDED_VE, 85)
    requires a2 == a + Suffix(2) && b2 == Rep(ROUNDED_VE, 83) + Suffix(2) && b3 == Rep(ROUNDED_VE, 83) + Suffix(3)
    ensures FoldVe(a) == a && FoldVe(b) == a && FoldVe(a2) == a2 && a != a2 && b2 != b3
    ensures FoldVe(b2) !in {a, a2} && FoldVe(b3) !in {a, a2}
  {
    hide *;
    FoldLetters(85);
    FoldAfter(a, 2);
    SuffixBytes(2);
    SuffixBytes(3);
    Apart(Rep(ROUNDED_VE, 83), a, a2, 2);
    Apart(Rep(ROUNDED_VE, 83), a, a2, 3);
    assert b2[85] == '2' && b3[85] == '3';
  }

  /** The fourth and fifth calls: what is given after a and a2, with the memory and without. */
  lemma StepsGive(nm: Naming, a: string, b: string, a2: string, b2: string, b3: string)
    requires nm.plain(a) == a && nm.plain(b) == b && nm.fold(a) == a && nm.fold(b) == a && nm.fold(a2) == a2 && a != a2
    requires nm.cand(a, 2) == a2 && nm.cand(b, 2) == b2 && nm.cand(b, 3) == b3
    requires nm.fold(b2) !in {a, a2} && nm.fold(b3) !in {a, a2}
    ensures Give(nm, Names({}, map[]), a) == Given(a, Names({a}, map[]), 0)
    ensures Give(nm, Names({a}, map[]), a) == Given(a2, Names({a, a2}, map[a := 3]), 1)
    ensures Give(nm, Names({a, a2}, map[a := 3]), b).name == b3
    ensures Give(nm, Names({a, a2}, map[]), b).name == b2
  {
    assert FirstFree(Cands(nm, a), {a}, 2) == 2;
    assert FirstFree(Cands(nm, b), {a, a2}, 2) == 2 && FirstFree(Cands(nm, b), {a, a2}, 3) == 3;
    hide FirstFree;
  }

  lemma OneMore(nm: Naming, used: set<string>, asked: seq<string>, name: string)
    ensures var s := Names(used, map[]);
      && Run(nm, s, asked + [name]) == Give(nm, Run(nm, s, asked), name).names
      && AllGiven(nm, s, asked + [name]) == AllGiven(nm, s, asked) + [Give(nm, Run(nm, s, asked), name).name]
      && RunNaively(nm, used, asked + [name]) == Give(nm, Names(RunNaively(nm, used, asked), map[]), name).names.used
      && AllGivenNaively(nm, used, asked + [name])
         == AllGivenNaively(nm, used, asked) + [Give(nm, Names(RunNaively(nm, used, asked), map[]), name).name]
  {
    assert (asked + [name])[..|asked|] == asked;
    hide Give;
  }

  lemma TwoCalls(nm: Naming, a: string, a2: string)
    requires Give(nm, Names({}, map[]), a) == Given(a, Names({a}, map[]), 0)
    requires Give(nm, Names({a}, map[]), a) == Given(a2, Names({a, a2}, map[a := 3]), 1)
    ensures Run(nm, Names({}, map[]), [a, a]) == Names({a, a2}, map[a := 3]) && RunNaively(nm, {}, [a, a]) == {a, a2}
  {
    var none: set<string> := {};
    assert [a, a] == ([] + [a]) + [a];
    OneMore(nm, none, [], a);
    OneMore(nm, none, [] + [a], a);
    assert Run(nm, Names(none, map[]), []) == Names(none, map[]) && RunNaively(nm, none, []) == none;
    hide *;
  }

  lemma ThreeCalls(nm: Naming, a: string, b: string, s: Names, b2: string, b3: string)
    requires Run(nm, Names({}, map[]), [a, a]) == s && RunNaively(nm, {}, [a, a]) == s.used
    requires Give(nm, s, b).name == b3 && Give(nm, Names(s.used, map[]), b).name == b2 && b2 != b3
    ensures AllGiven(nm, Names({}, map[]), [a, a, b]) != AllGivenNaively(nm, {}, [a, a, b])
  {
    hide *;
    assert [a, a, b] == [a, a] + [b];
    OneMore(nm, {}, [a, a], b);
    var given, naive := AllGiven(nm, Names({}, map[]), [a, a, b]), AllGivenNaively(nm, {}, [a, a, b]);
    assert given[|given| - 1] == b3 && naive[|naive| - 1] == b2;
  }

  /** Without congruence the memory shows: of two letters that fold alike the longer one's names are cut,
      so after two names of the one, the name given for the other is not the scan's. */
  lemma MemoryShows()
    ensures var nm, a, b := ByteNaming(), Rep(VE, 85), Rep(ROUNDED_VE, 85);
      && Numbered(nm) && Bytes(a) <= MAX_BYTES && Bytes(b) <= MAX_BYTES
      && AllGiven(nm, Names({}, map[]), [a, a, b]) != AllGivenNaively(nm, {}, [a, a, b])
  {
    var nm, a, b := ByteNaming(), Rep(VE, 85), Rep(ROUNDED_VE, 85);
    forall name, i: nat, j: nat | Cands(nm, name)(i) == Cands(nm, name)(j) ensures i == j {
      CandidatesTell(name, i, j);
    }
    RepBytes(VE, 85);
    RepBytes(ROUNDED_VE, 85);
    var a2, b2, b3 := a + Suffix(2), Rep(ROUNDED_VE, 83) + Suffix(2), Rep(ROUNDED_VE, 83) + Suffix(3);
    LetterCandidates(2);
    LetterCandidates(3);
    LetterKeys(a, b, a2, b2, b3);
    hide Give, Suffix, Rep, FoldVe, Candidate, Bytes;
    StepsGive(nm, a, b, a2, b2, b3);
    hide *;
    TwoCalls(nm, a, a2);
    ThreeCalls(nm, a, b, Names({a, a2}, map[a := 3]), b2, b3);
  }
}
