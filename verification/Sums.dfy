/** SHA256SUMS.txt: how it is built from a record, how a check reads it back, and what the check's
    verdict says of the folder. A SHA-256 is the string of its 64 hex digits. */
module Sums {
  import opened RunRecord
  import opened Sorting
  import opened Text

  const MARKER_NAME := "_EXPORT-NOT-FINISHED.txt"
  const README_NAME := "README.txt"
  const MANIFEST_NAME := "export-manifest.json"
  const SUMS_NAME := "SHA256SUMS.txt"

  datatype SumLine = SumLine(path: string, hash: string)

  predicate PathBefore(a: SumLine, b: SumLine) { Less(a.path, b.path) }

  // ---- building

  /** Windows separators become slashes. */
  function SumsPath(rel: string): string {
    if rel == "" then ""
    else
      var last := rel[|rel| - 1];
      SumsPath(rel[..|rel| - 1]) + [if last == '\\' then '/' else last]
  }

  lemma {:induction false} SlashedAt(rel: string)
    ensures |SumsPath(rel)| == |rel|
    ensures forall k :: 0 <= k < |rel| ==> SumsPath(rel)[k] == if rel[k] == '\\' then '/' else rel[k]
  {
    if rel != "" {
      SlashedAt(rel[..|rel| - 1]);
    }
  }

  function FileLines(files: seq<FileRec>): (r: seq<SumLine>)
    ensures |r| == |files|
    ensures forall i :: 0 <= i < |r| ==> r[i] == SumLine(SumsPath(files[i].path), files[i].sha)
  {
    if files == [] then []
    else
      var last := files[|files| - 1];
      FileLines(files[..|files| - 1]) + [SumLine(SumsPath(last.path), last.sha)]
  }

  function ListedLines(ms: seq<Msg>): seq<SumLine> {
    if ms == [] then []
    else
      var last := ms[|ms| - 1];
      ListedLines(ms[..|ms| - 1]) + (if Listed(last.status) then FileLines(last.files) else [])
  }

  lemma {:induction false} ListedLinesAre(ms: seq<Msg>, l: SumLine)
    ensures l in ListedLines(ms) <==>
      exists i, j :: 0 <= i < |ms| && Listed(ms[i].status) && 0 <= j < |ms[i].files|
        && l == SumLine(SumsPath(ms[i].files[j].path), ms[i].files[j].sha)
  {
    hide SumsPath;
    if ms != [] {
      var front, last := ms[..|ms| - 1], ms[|ms| - 1];
      ListedLinesAre(front, l);
      hide FileLines;
      if l in ListedLines(ms) && l !in ListedLines(front) {
        var j :| 0 <= j < |last.files| && FileLines(last.files)[j] == l;
        assert ms[|ms| - 1].files[j] == last.files[j];
      }
      forall i, j | 0 <= i < |ms| && Listed(ms[i].status) && 0 <= j < |ms[i].files|
        && l == SumLine(SumsPath(ms[i].files[j].path), ms[i].files[j].sha)
        ensures l in ListedLines(ms)
      {
        if i < |ms| - 1 {
          assert front[i] == ms[i];
        } else {
          assert FileLines(last.files)[j] == l;
        }
      }
    }
  }

  /** The lines of a record's sums, by path: the README's, the manifest's and those of the files of
      every message that was exported. */
  function SealedLines(readme: string, manifest: string, ms: seq<Msg>): seq<SumLine> {
    Sort([SumLine(README_NAME, readme), SumLine(MANIFEST_NAME, manifest)] + ListedLines(ms), PathBefore)
  }

  lemma SealedCount(readme: string, manifest: string, ms: seq<Msg>)
    ensures |SealedLines(readme, manifest, ms)| == 2 + |ListedLines(ms)|
  {
    var unsorted := [SumLine(README_NAME, readme), SumLine(MANIFEST_NAME, manifest)] + ListedLines(ms);
    assert |multiset(SealedLines(readme, manifest, ms))| == |multiset(unsorted)|;
  }

  /** The lines are in the order of their paths. */
  lemma SealedLinesSorted(readme: string, manifest: string, ms: seq<Msg>)
    ensures SortedBy(SealedLines(readme, manifest, ms), PathBefore)
  {
    forall a, b, c | !PathBefore(b, a) && !PathBefore(c, b) ensures !PathBefore(c, a) {
      NotLessTransitive(a.path, b.path, c.path);
    }
    forall a, b | PathBefore(a, b) ensures !PathBefore(b, a) {
      LessTrichotomy(a.path, b.path);
    }
    assert Orders(PathBefore);
  }

  function RenderLine(l: SumLine): string { l.hash + "  " + l.path }

  function Render(lines: seq<SumLine>): string {
    if lines == [] then "" else Render(lines[..|lines| - 1]) + RenderLine(lines[|lines| - 1]) + "\n"
  }

  method AddFiles(lines: seq<SumLine>, files: seq<FileRec>) returns (out: seq<SumLine>)
    ensures out == lines + FileLines(files)
  {
    out := lines;
    for j := 0 to |files|
      invariant out == lines + FileLines(files[..j])
    {
      assert files[..j + 1][..j] == files[..j];
      out := out + [SumLine(SumsPath(files[j].path), files[j].sha)];
    }
    assert files[..|files|] == files;
  }

  /** buildSums. */
  method BuildSums(readme: string, manifest: string, lines: seq<Line>) returns (sums: string)
    ensures sums == Render(SealedLines(readme, manifest, Effective(lines)))
  {
    hide Effective;
    hide Render;
    hide FileLines;
    hide Sort;
    var ms := Effective(lines);
    var out := [SumLine(README_NAME, readme), SumLine(MANIFEST_NAME, manifest)];
    ghost var first := out;
    for i := 0 to |ms|
      invariant out == first + ListedLines(ms[..i])
    {
      assert ms[..i + 1][..i] == ms[..i];
      if Listed(ms[i].status) {
        out := AddFiles(out, ms[i].files);
      }
    }
    assert ms[..|ms|] == ms;
    sums := WriteSums(Sort(out, PathBefore));
  }

  method WriteSums(out: seq<SumLine>) returns (sums: string)
    ensures sums == Render(out)
  {
    sums := "";
    for i := 0 to |out|
      invariant sums == Render(out[..i])
    {
      assert out[..i + 1][..i] == out[..i];
      sums := sums + RenderLine(out[i]) + "\n";
    }
    assert out[..|out|] == out;
  }

  // ---- reading back

  datatype Parsed = Blank | Malformed | Good(line: SumLine)

  /** The place of the first two spaces from i on, |s| when there are none. */
  function Gap(s: string, i: nat): (r: nat)
    requires i <= |s|
    ensures i <= r <= |s| && (r < |s| ==> r + 1 < |s| && s[r] == ' ' && s[r + 1] == ' ')
    ensures forall k :: i <= k < r && k + 1 < |s| ==> !(s[k] == ' ' && s[k + 1] == ' ')
    decreases |s| - i
  {
    if i + 1 >= |s| then |s| else if s[i] == ' ' && s[i + 1] == ' ' then i else Gap(s, i + 1)
  }

  function ParseLine(line: string): Parsed {
    if line == "" then Blank
    else
      var k := Gap(line, 0);
      if k == |line| || k != 64 || k + 2 == |line| then Malformed else Good(SumLine(line[k + 2..], line[..k]))
  }

  /** A line is read as a file exactly when it is one's hash of 64 characters, two spaces, the first two in it, and a
      path; an empty line is passed over, and any other is malformed. */
  lemma ParseLineIs(line: string, l: SumLine)
    ensures ParseLine(line).Blank? <==> line == ""
    ensures ParseLine(line) == Good(l) <==>
      && line == RenderLine(l) && |l.hash| == 64 && l.path != ""
      && forall k :: 0 <= k < 64 ==> !(line[k] == ' ' && line[k + 1] == ' ')
  {
    if line == RenderLine(l) && |l.hash| == 64 && l.path != ""
       && forall k :: 0 <= k < 64 ==> !(line[k] == ' ' && line[k + 1] == ' ')
    {
      var g := Gap(line, 0);
      assert line[64] == ' ' && line[65] == ' ' && g == 64;
      assert line[66..] == l.path && line[..64] == l.hash;
    }
    if ParseLine(line).Good? {
      var g := Gap(line, 0);
      assert line == line[..g] + "  " + line[g + 2..];
    }
  }

  function ParseLines(pieces: seq<string>): (r: seq<Parsed>)
    ensures |r| == |pieces| && forall i :: 0 <= i < |r| ==> r[i] == ParseLine(pieces[i])
  {
    if pieces == [] then [] else ParseLines(pieces[..|pieces| - 1]) + [ParseLine(pieces[|pieces| - 1])]
  }

  function Pieces(data: string): (r: seq<string>) { Split(TrimRight(data, '\n'), '\n') }

  function Parse(data: string): seq<Parsed> { ParseLines(Pieces(data)) }

  predicate IsHash(hash: string) { |hash| == 64 && ' ' !in hash && '\n' !in hash }

  /** A line the format can carry: 64 digits, and a path that is one line. */
  predicate Printable(l: SumLine) { IsHash(l.hash) && l.path != "" && '\n' !in l.path }

  ghost predicate AllPrintable(lines: seq<SumLine>) { forall i :: 0 <= i < |lines| ==> Printable(lines[i]) }

  lemma ParseRendered(l: SumLine)
    requires Printable(l)
    ensures ParseLine(RenderLine(l)) == Good(l)
  {
    var s := RenderLine(l);
    forall j | 0 <= j < 64 ensures s[j] != ' ' {
      assert l.hash[j] in l.hash;
    }
    assert s[64] == ' ' && s[65] == ' ';
    assert s[66..] == l.path && s[..64] == l.hash;
  }

  function Rendered(lines: seq<SumLine>): (r: seq<string>)
    ensures |r| == |lines| && forall i :: 0 <= i < |r| ==> r[i] == RenderLine(lines[i])
  {
    if lines == [] then [] else Rendered(lines[..|lines| - 1]) + [RenderLine(lines[|lines| - 1])]
  }

  lemma {:induction false} JoinLast(parts: seq<string>, last: string, sep: char)
    requires parts != []
    ensures Join(parts + [last], sep) == Join(parts, sep) + [sep] + last
  {
    if |parts| == 1 {
      assert (parts + [last])[1..] == [last];
    } else {
      JoinLast(parts[1..], last, sep);
      assert (parts + [last])[1..] == parts[1..] + [last];
    }
  }

  lemma {:induction false} RenderIsJoin(lines: seq<SumLine>)
    requires lines != []
    ensures Render(lines) == Join(Rendered(lines), '\n') + "\n"
  {
    if |lines| == 1 {
      assert lines[..0] == [];
    } else {
      var front, last := lines[..|lines| - 1], lines[|lines| - 1];
      RenderIsJoin(front);
      JoinLast(Rendered(front), RenderLine(last), '\n');
    }
  }

  lemma {:induction false} JoinEnds(parts: seq<string>, sep: char)
    requires parts != [] && parts[|parts| - 1] != ""
    ensures var j, last := Join(parts, sep), parts[|parts| - 1];
      j != "" && j[|j| - 1] == last[|last| - 1]
  {
    if |parts| > 1 {
      JoinEnds(parts[1..], sep);
    }
  }

  lemma TrimOne(s: string, c: char)
    requires s != "" && s[|s| - 1] != c
    ensures TrimRight(s + [c], c) == s
  {
    assert (s + [c])[..|s|] == s;
  }

  lemma PiecesOfRender(lines: seq<SumLine>)
    requires lines != [] && AllPrintable(lines)
    ensures Pieces(Render(lines)) == Rendered(lines)
  {
    var parts := Rendered(lines);
    RenderIsJoin(lines);
    var last := lines[|lines| - 1];
    assert RenderLine(last)[|RenderLine(last)| - 1] == last.path[|last.path| - 1];
    assert last.path[|last.path| - 1] in last.path;
    JoinEnds(parts, '\n');
    TrimOne(Join(parts, '\n'), '\n');
    forall i | 0 <= i < |parts| ensures '\n' !in parts[i] {
      assert Printable(lines[i]);
    }
    SplitJoin(parts, '\n');
  }

  /** Reading back what was printed gives exactly the lines printed. */
  lemma ParseRender(lines: seq<SumLine>)
    requires lines != [] && AllPrintable(lines)
    ensures |Parse(Render(lines))| == |lines|
    ensures forall i :: 0 <= i < |lines| ==> Parse(Render(lines))[i] == Good(lines[i])
  {
    PiecesOfRender(lines);
    forall i | 0 <= i < |lines| ensures Parse(Render(lines))[i] == Good(lines[i]) {
      assert Printable(lines[i]);
      ParseRendered(lines[i]);
    }
  }
}
