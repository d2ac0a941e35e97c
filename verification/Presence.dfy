/** The presence check of a finishing run: each recorded file looked up in the folder and, with
    rehash, hashed again; a message the folder no longer backs is amended. */
module Presence {
  import opened Wrappers
  import opened RunRecord

  /** What a look meets at a path: nothing, no answer, a directory, something else that is no regular file (a
      link, a device), or a regular file. */
  datatype Look = LookGone | NoAnswer | LookDirectory | Irregular | Regular(size: nat)

  datatype Rehash = HashGone | HashNoAnswer | HashNotRegular | HashOf(sha: string)

  /** What the folder answers for a path: to a look and to a hash. */
  datatype Answer = Answer(look: Look, hash: Rehash)

  type Folder = string -> Answer

  datatype Loss = Vanished | Damaged

  datatype Found = Fine | Lost(loss: Loss) | Unanswered

  predicate IsDerivedAttach(r: Role) { r == DerivedAttachment || r == DerivedAttachmentsZip }

  predicate IsDerived(r: Role) { r == DerivedHTML || IsDerivedAttach(r) }

  function DerivedWhy(loss: Loss): string {
    match loss
    case Vanished => "it was no longer in the export folder when the export was finished"
    case Damaged => "it was damaged when the computer stopped"
  }

  /** Whether a recorded file is there, a regular file and, with rehash, its recorded bytes. */
  predicate Backed(folder: Folder, f: FileRec, rehash: bool) {
    && folder(f.path).look.Regular?
    && (rehash ==> folder(f.path).hash == HashOf(f.sha) && folder(f.path).look.size == f.size)
  }

  /** readableProblem: a derived file that is not a regular file any more when it is hashed is damaged. */
  function DerivedState(folder: Folder, f: FileRec, rehash: bool): (r: Found)
    ensures r.Fine? <==> Backed(folder, f, rehash)
  {
    var a := folder(f.path);
    match a.look
    case NoAnswer => Unanswered
    case LookGone | LookDirectory | Irregular => Lost(Vanished)
    case Regular(size) =>
      if !rehash then Fine
      else
        match a.hash
        case HashNoAnswer => Unanswered
        case HashGone | HashNotRegular => Lost(Damaged)
        case HashOf(sha) => if sha != f.sha || size != f.size then Lost(Damaged) else Fine
  }

  /** The same for an original, where a hash that meets no regular file is the volume not answering. */
  function OriginalState(folder: Folder, f: FileRec, rehash: bool): (r: Found)
    ensures r.Fine? <==> Backed(folder, f, rehash)
  {
    var a := folder(f.path);
    match a.look
    case NoAnswer => Unanswered
    case LookGone | LookDirectory | Irregular => Lost(Vanished)
    case Regular(size) =>
      if !rehash then Fine
      else
        match a.hash
        case HashNoAnswer | HashNotRegular => Unanswered
        case HashGone => Lost(Damaged)
        case HashOf(sha) => if sha != f.sha || size != f.size then Lost(Damaged) else Fine
  }

  // ---- one message

  function KeptFiles(folder: Folder, files: seq<FileRec>, rehash: bool): (r: seq<FileRec>)
    ensures forall f :: f in r <==> f in files && (IsDerived(f.role) ==> Backed(folder, f, rehash))
    ensures |r| <= |files| && (|r| == |files| ==> r == files)
  {
    if files == [] then []
    else
      var last := files[|files| - 1];
      KeptFiles(folder, files[..|files| - 1], rehash)
      + (if IsDerived(last.role) && !Backed(folder, last, rehash) then [] else [last])
  }

  /** Why the first lost readable copy is, None when none is lost. */
  function ReadableWhy(folder: Folder, files: seq<FileRec>, rehash: bool): Option<string> {
    if files == [] then None
    else
      var front, last := ReadableWhy(folder, files[..|files| - 1], rehash), files[|files| - 1];
      var state := DerivedState(folder, last, rehash);
      if front.None? && last.role.DerivedHTML? && state.Lost? then Some(DerivedWhy(state.loss)) else front
  }

  /** The notes on the lost attachments. */
  function LostNotes(folder: Folder, files: seq<FileRec>, rehash: bool): seq<Note> {
    if files == [] then []
    else
      var front, last := LostNotes(folder, files[..|files| - 1], rehash), files[|files| - 1];
      var state := DerivedState(folder, last, rehash);
      if IsDerivedAttach(last.role) && state.Lost? then front + [AttachmentLost(last.path, DerivedWhy(state.loss))] else front
  }

  /** The volume does not answer about one of the derived files. */
  function DerivedSilent(folder: Folder, files: seq<FileRec>, rehash: bool): (r: bool)
    ensures r ==> exists f :: f in files && IsDerived(f.role) && !Backed(folder, f, rehash)
  {
    files != [] &&
    (DerivedSilent(folder, files[..|files| - 1], rehash)
     || (IsDerived(files[|files| - 1].role) && DerivedState(folder, files[|files| - 1], rehash).Unanswered?))
  }

  /** The place of the first original that is not backed, |files| when all are. */
  function FirstBad(folder: Folder, files: seq<FileRec>, rehash: bool, i: nat): (r: nat)
    requires i <= |files|
    ensures i <= r <= |files|
    ensures r < |files| ==> !IsDerived(files[r].role) && !Backed(folder, files[r], rehash)
    ensures forall k :: i <= k < r ==> IsDerived(files[k].role) || Backed(folder, files[k], rehash)
    decreases |files| - i
  {
    if i == |files| || (!IsDerived(files[i].role) && !Backed(folder, files[i], rehash)) then i
    else FirstBad(folder, files, rehash, i + 1)
  }

  /** A message that lost derived files keeps its status, unless it lost a readable copy: then it is left with
      its original only. */
  function DerivedAmend(m: Msg, kept: seq<FileRec>, why: Option<string>, lost: seq<Note>): Msg {
    var notes := m.notes + (if why.Some? then [ReadableLost(why.value)] else []) + lost;
    Msg(m.n, if why.Some? then OriginalOnly else m.status, false, "", kept, notes, true)
  }

  function OriginalAmend(m: Msg, path: string, rehash: bool, loss: Loss): Msg {
    match loss
    case Vanished =>
      if rehash then Msg(m.n, NotAttempted, false, "the file was no longer there when the export was finished", [], [], true)
      else
        var reason := "the exported file " + path + " was no longer in the export folder when it was finished";
        Msg(m.n, FailedMsg, true, reason, [], [], true)
    case Damaged => Msg(m.n, FailedMsg, true, "damaged when the computer stopped", [], [], true)
  }

  function DerivedAmends(folder: Folder, m: Msg, rehash: bool): seq<Msg> {
    var why, lost := ReadableWhy(folder, m.files, rehash), LostNotes(folder, m.files, rehash);
    if why.None? && lost == [] then [] else [DerivedAmend(m, KeptFiles(folder, m.files, rehash), why, lost)]
  }

  /** Where the volume answers, derived files are dropped exactly when a reason or a note is given. */
  lemma {:induction false} DroppedAreTold(folder: Folder, files: seq<FileRec>, rehash: bool)
    requires !DerivedSilent(folder, files, rehash)
    ensures |KeptFiles(folder, files, rehash)| == |files|
      <==> ReadableWhy(folder, files, rehash).None? && LostNotes(folder, files, rehash) == []
  {
    hide *;
    if files != [] {
      var n := |files| - 1;
      OneDerived(folder, files, rehash, n);
      assert files[..n + 1] == files;
      DroppedAreTold(folder, files[..n], rehash);
    } else {
      NoneDerived(folder, rehash);
    }
  }

  /** The amendments a message is owed, None when the volume does not answer about it: its derived
      files are judged first, its originals after, so that the later amendment wins. */
  function MessageAmends(folder: Folder, m: Msg, rehash: bool): Option<seq<Msg>> {
    if !Listed(m.status) then Some([])
    else if DerivedSilent(folder, m.files, rehash) then None
    else
      var bad := FirstBad(folder, m.files, rehash, 0);
      if bad == |m.files| then Some(DerivedAmends(folder, m, rehash))
      else
        match OriginalState(folder, m.files[bad], rehash)
        case Unanswered => None
        case Lost(loss) => Some(DerivedAmends(folder, m, rehash) + [OriginalAmend(m, m.files[bad].path, rehash, loss)])
        case Fine => assert false; None
  }

  /** The look at a message's derived files. */
  method CheckDerived(folder: Folder, files: seq<FileRec>, rehash: bool)
    returns (answered: bool, kept: seq<FileRec>, why: Option<string>, lost: seq<Note>)
    ensures answered <==> !DerivedSilent(folder, files, rehash)
    ensures answered ==> kept == KeptFiles(folder, files, rehash) && why == ReadableWhy(folder, files, rehash)
    ensures answered ==> lost == LostNotes(folder, files, rehash)
  {
    hide *;
    NoneDerived(folder, rehash);
    assert files[..0] == [];
    kept, why, lost := [], None, [];
    for i := 0 to |files|
      invariant kept == KeptFiles(folder, files[..i], rehash)
      invariant why == ReadableWhy(folder, files[..i], rehash)
      invariant lost == LostNotes(folder, files[..i], rehash)
      invariant !DerivedSilent(folder, files[..i], rehash)
    {
      OneDerived(folder, files, rehash, i);
      if !IsDerived(files[i].role) {
        kept := kept + [files[i]];
        continue;
      }
      match DerivedState(folder, files[i], rehash) {
        case Unanswered =>
          SilentGrows(folder, files, rehash, i + 1);
          return false, kept, why, lost;
        case Fine => kept := kept + [files[i]];
        case Lost(loss) =>
          if IsDerivedAttach(files[i].role) {
            lost := lost + [AttachmentLost(files[i].path, DerivedWhy(loss))];
          } else if why.None? {
            why := Some(DerivedWhy(loss));
          }
      }
    }
    answered := true;
    assert files[..|files|] == files;
  }

  lemma NoneDerived(folder: Folder, rehash: bool)
    ensures KeptFiles(folder, [], rehash) == [] && ReadableWhy(folder, [], rehash).None?
    ensures LostNotes(folder, [], rehash) == [] && !DerivedSilent(folder, [], rehash)
  {
  }

  /** What one more file adds to the look. */
  lemma OneDerived(folder: Folder, files: seq<FileRec>, rehash: bool, i: nat)
    requires i < |files|
    ensures var f, front, more := files[i], files[..i], files[..i + 1];
      var state, why := DerivedState(folder, f, rehash), ReadableWhy(folder, front, rehash);
      && (KeptFiles(folder, more, rehash)
          == KeptFiles(folder, front, rehash) + if IsDerived(f.role) && !state.Fine? then [] else [f])
      && (ReadableWhy(folder, more, rehash)
          == if why.None? && IsDerived(f.role) && !IsDerivedAttach(f.role) && state.Lost? then Some(DerivedWhy(state.loss))
             else why)
      && (LostNotes(folder, more, rehash)
          == LostNotes(folder, front, rehash)
             + if IsDerivedAttach(f.role) && state.Lost? then [AttachmentLost(f.path, DerivedWhy(state.loss))] else [])
      && (DerivedSilent(folder, more, rehash)
          <==> DerivedSilent(folder, front, rehash) || (IsDerived(f.role) && state.Unanswered?))
      && (IsDerivedAttach(f.role) ==> IsDerived(f.role))
  {
    assert files[..i + 1][..i] == files[..i];
    hide DerivedWhy;
  }

  lemma {:induction false} SilentGrows(folder: Folder, files: seq<FileRec>, rehash: bool, i: nat)
    requires i <= |files| && DerivedSilent(folder, files[..i], rehash)
    ensures DerivedSilent(folder, files, rehash)
    decreases |files|
  {
    if i == |files| {
      assert files[..i] == files;
    } else {
      assert files[..|files| - 1][..i] == files[..i];
      SilentGrows(folder, files[..|files| - 1], rehash, i);
    }
  }

  /** The look at its originals, up to the first that is not backed. */
  method CheckOriginals(folder: Folder, files: seq<FileRec>, rehash: bool) returns (bad: nat, state: Found)
    ensures bad == FirstBad(folder, files, rehash, 0)
    ensures state == if bad < |files| then OriginalState(folder, files[bad], rehash) else Fine
  {
    for i := 0 to |files|
      invariant FirstBad(folder, files, rehash, 0) == FirstBad(folder, files, rehash, i)
    {
      if !IsDerived(files[i].role) {
        state := OriginalState(folder, files[i], rehash);
        if !state.Fine? {
          return i, state;
        }
      }
    }
    return |files|, Fine;
  }

  /** One message of the presence check. */
  method CheckMessage(folder: Folder, m: Msg, rehash: bool) returns (amends: Option<seq<Msg>>)
    ensures amends == MessageAmends(folder, m, rehash)
  {
    if !Listed(m.status) {
      return Some([]);
    }
    var answered, kept, why, lost := CheckDerived(folder, m.files, rehash);
    if !answered {
      return None;
    }
    var out := if why.Some? || lost != [] then [DerivedAmend(m, kept, why, lost)] else [];
    assert out == DerivedAmends(folder, m, rehash);
    hide DerivedAmends;
    var bad, state := CheckOriginals(folder, m.files, rehash);
    match state {
      case Unanswered => amends := None;
      case Lost(loss) => amends := Some(out + [OriginalAmend(m, m.files[bad].path, rehash, loss)]);
      case Fine => amends := Some(out);
    }
  }

  // ---- the whole record

  function AllAmends(folder: Folder, ms: seq<Msg>, rehash: bool): Option<seq<Msg>> {
    if ms == [] then Some([])
    else
      var front := AllAmends(folder, ms[..|ms| - 1], rehash);
      var last := MessageAmends(folder, ms[|ms| - 1], rehash);
      if front.None? || last.None? then None else Some(front.value + last.value)
  }

  function WithAmends(lines: seq<Line>, amends: seq<Msg>): seq<Line> {
    if amends == [] then lines else WithAmends(lines, amends[..|amends| - 1]) + [MsgLine(amends[|amends| - 1])]
  }

  /** presence: every message is judged before anything is appended; `appends` is how many lines the
      record takes before an append fails. */
  method CheckPresence(lines: seq<Line>, folder: Folder, rehash: bool, appends: nat) returns (after: seq<Line>, done: bool)
    ensures var amends := AllAmends(folder, Effective(lines), rehash);
      && (amends.None? ==> after == lines && !done)
      && (amends.Some? ==>
            done == (|amends.value| <= appends)
            && after == WithAmends(lines, if done then amends.value else amends.value[..appends]))
  {
    hide MessageAmends;
    hide Effective;
    var ms := Effective(lines);
    var amends: seq<Msg> := [];
    for i := 0 to |ms|
      invariant AllAmends(folder, ms[..i], rehash) == Some(amends)
    {
      assert ms[..i + 1][..i] == ms[..i];
      var more := CheckMessage(folder, ms[i], rehash);
      if more.None? {
        SilentMessage(folder, ms, rehash, i + 1);
        return lines, false;
      }
      amends := amends + more.value;
    }
    assert ms[..|ms|] == ms;
    after := lines;
    for k := 0 to |amends|
      invariant after == WithAmends(lines, amends[..k]) && k <= appends
    {
      assert amends[..k + 1][..k] == amends[..k];
      if k == appends {
        return after, false;
      }
      after := after + [MsgLine(amends[k])];
    }
    assert amends[..|amends|] == amends;
    done := true;
  }

  lemma {:induction false} SilentMessage(folder: Folder, ms: seq<Msg>, rehash: bool, i: nat)
    requires i <= |ms| && AllAmends(folder, ms[..i], rehash).None?
    ensures AllAmends(folder, ms, rehash).None?
    decreases |ms|
  {
    if i == |ms| {
      assert ms[..i] == ms;
    } else {
      assert ms[..|ms| - 1][..i] == ms[..i];
      SilentMessage(folder, ms[..|ms| - 1], rehash, i);
    }
  }

  // ---- what the record says after it

  ghost predicate AllAmend(amends: seq<Msg>) { forall i :: 0 <= i < |amends| ==> amends[i].amend }

  lemma {:induction false} AmendsKeepLines(lines: seq<Line>, amends: seq<Msg>)
    requires AllAmend(amends)
    ensures FirstLines(WithAmends(lines, amends)) == FirstLines(lines)
    ensures PlanNumbers(WithAmends(lines, amends)) == PlanNumbers(lines)
  {
    if amends != [] {
      var front := WithAmends(lines, amends[..|amends| - 1]);
      AmendsKeepLines(lines, amends[..|amends| - 1]);
      assert WithAmends(lines, amends)[..|front|] == front;
    }
  }

  function LastFor(amends: seq<Msg>, n: nat): Option<Msg> {
    if amends == [] then None
    else if amends[|amends| - 1].n == n then Some(amends[|amends| - 1])
    else LastFor(amends[..|amends| - 1], n)
  }

  lemma {:induction false} AmendmentsAfter(lines: seq<Line>, amends: seq<Msg>, n: nat)
    requires AllAmend(amends)
    ensures var a, b := Amendments(lines), Amendments(WithAmends(lines, amends));
      && (LastFor(amends, n).Some? ==> n in b && b[n] == LastFor(amends, n).value)
      && (LastFor(amends, n).None? ==> (n in b <==> n in a) && (n in a ==> b[n] == a[n]))
  {
    if amends != [] {
      var front := WithAmends(lines, amends[..|amends| - 1]);
      AmendmentsAfter(lines, amends[..|amends| - 1], n);
      assert WithAmends(lines, amends)[..|front|] == front;
    }
  }

  lemma {:induction false} LastForConcat(a: seq<Msg>, b: seq<Msg>, n: nat)
    ensures LastFor(a + b, n) == if LastFor(b, n).Some? then LastFor(b, n) else LastFor(a, n)
  {
    if b == [] {
      assert a + b == a;
    } else {
      assert (a + b)[..|a + b| - 1] == a + b[..|b| - 1];
      LastForConcat(a, b[..|b| - 1], n);
    }
  }

  ghost predicate OnlyOf(amends: seq<Msg>, n: nat) { forall i :: 0 <= i < |amends| ==> amends[i].n == n }

  lemma AmendsShape(folder: Folder, m: Msg, rehash: bool)
    requires MessageAmends(folder, m, rehash).Some?
    ensures AllAmend(MessageAmends(folder, m, rehash).value) && OnlyOf(MessageAmends(folder, m, rehash).value, m.n)
  {
    hide FirstBad;
    hide DerivedSilent;
    hide OriginalState;
    DerivedShape(folder, m, rehash);
    hide DerivedAmends;
  }

  lemma DerivedShape(folder: Folder, m: Msg, rehash: bool)
    ensures AllAmend(DerivedAmends(folder, m, rehash)) && OnlyOf(DerivedAmends(folder, m, rehash), m.n)
  {
    hide KeptFiles;
    hide ReadableWhy, LostNotes;
  }

  lemma {:induction false} LastForOnly(amends: seq<Msg>, m: nat, n: nat)
    requires OnlyOf(amends, m)
    ensures LastFor(amends, n) == if n != m || amends == [] then None else Some(amends[|amends| - 1])
  {
    if amends != [] && n != m {
      LastForOnly(amends[..|amends| - 1], m, n);
    }
  }

  lemma AmendsOfMessage(folder: Folder, m: Msg, rehash: bool, n: nat)
    requires MessageAmends(folder, m, rehash).Some?
    ensures var amends := MessageAmends(folder, m, rehash).value;
      && AllAmend(amends)
      && LastFor(amends, n) == if n != m.n || amends == [] then None else Some(amends[|amends| - 1])
  {
    AmendsShape(folder, m, rehash);
    hide MessageAmends;
    LastForOnly(MessageAmends(folder, m, rehash).value, m.n, n);
  }

  lemma {:induction false} AmendsOfAll(folder: Folder, ms: seq<Msg>, rehash: bool, n: nat)
    requires AllAmends(folder, ms, rehash).Some?
    ensures AllAmend(AllAmends(folder, ms, rehash).value)
    ensures (forall i :: 0 <= i < |ms| ==> ms[i].n != n) ==> LastFor(AllAmends(folder, ms, rehash).value, n).None?
  {
    if ms != [] {
      var front := ms[..|ms| - 1];
      AmendsOfAll(folder, front, rehash, n);
      AmendsOfMessage(folder, ms[|ms| - 1], rehash, n);
      LastForConcat(AllAmends(folder, front, rehash).value, MessageAmends(folder, ms[|ms| - 1], rehash).value, n);
    }
  }

  lemma {:induction false} AmendOfOne(folder: Folder, ms: seq<Msg>, rehash: bool, planned: nat, i: nat)
    requires AllAmends(folder, ms, rehash).Some? && Increasing(ms, planned) && i < |ms|
    ensures MessageAmends(folder, ms[i], rehash).Some?
    ensures LastFor(AllAmends(folder, ms, rehash).value, ms[i].n)
      == LastFor(MessageAmends(folder, ms[i], rehash).value, ms[i].n)
    decreases |ms|
  {
    var front, last := ms[..|ms| - 1], ms[|ms| - 1];
    var n := ms[i].n;
    AmendsOfMessage(folder, last, rehash, n);
    LastForConcat(AllAmends(folder, front, rehash).value, MessageAmends(folder, last, rehash).value, n);
    if i < |ms| - 1 {
      AmendOfOne(folder, front, rehash, planned, i);
    } else {
      AmendsOfAll(folder, front, rehash, n);
    }
  }

  /** A message's effective line after the check. */
  function Settled(folder: Folder, m: Msg, rehash: bool): Msg {
    var amends := MessageAmends(folder, m, rehash);
    if amends.None? || amends.value == [] then m else amends.value[|amends.value| - 1]
  }

  lemma EffectiveAfter(planned: nat, lines: seq<Line>, folder: Folder, rehash: bool)
    requires WellFormed(planned, lines) && AllAmends(folder, Effective(lines), rehash).Some?
    ensures var after := WithAmends(lines, AllAmends(folder, Effective(lines), rehash).value);
      && WellFormed(planned, after)
      && |Effective(after)| == |Effective(lines)|
      && forall i :: 0 <= i < |Effective(lines)| ==> Effective(after)[i] == Settled(folder, Effective(lines)[i], rehash)
  {
    var ms := Effective(lines);
    var amends := AllAmends(folder, ms, rehash).value;
    var after := WithAmends(lines, amends);
    EffectiveIncreasing(planned, lines);
    AmendsOfAll(folder, ms, rehash, 0);
    AmendsKeepLines(lines, amends);
    forall i | 0 <= i < |ms| ensures Effective(after)[i] == Settled(folder, ms[i], rehash) {
      AmendOfOne(folder, ms, rehash, planned, i);
      AmendsOfMessage(folder, ms[i], rehash, ms[i].n);
      AmendmentsAfter(lines, amends, ms[i].n);
    }
    forall n | n in Amendments(after) ensures exists i :: 0 <= i < |FirstLines(after)| && FirstLines(after)[i].n == n {
      AmendmentsAfter(lines, amends, n);
      AmendsOfAll(folder, ms, rehash, n);
      if n !in Amendments(lines) {
        var i :| 0 <= i < |ms| && ms[i].n == n;
        assert FirstLines(after)[i].n == n;
      }
    }
  }

  /** The amendment for lost derived files, if one is owed, keeps the rest. */
  lemma DerivedAmendsAre(folder: Folder, m: Msg, rehash: bool)
    requires Listed(m.status) && !DerivedSilent(folder, m.files, rehash)
    ensures var amends, kept := DerivedAmends(folder, m, rehash), KeptFiles(folder, m.files, rehash);
      && |amends| <= 1 && (amends == [] ==> m.files == kept)
      && (amends != [] ==> Listed(amends[0].status) && amends[0].files == kept)
  {
    DroppedAreTold(folder, m.files, rehash);
    hide ReadableWhy, LostNotes, DerivedSilent;
  }

  ghost predicate OriginalsBacked(folder: Folder, files: seq<FileRec>, rehash: bool) {
    forall f :: f in files && !IsDerived(f.role) ==> Backed(folder, f, rehash)
  }

  lemma NoneBad(folder: Folder, files: seq<FileRec>, rehash: bool)
    ensures FirstBad(folder, files, rehash, 0) == |files| <==> OriginalsBacked(folder, files, rehash)
  {
    var bad := FirstBad(folder, files, rehash, 0);
    if bad < |files| {
      assert files[bad] in files;
    }
    hide FirstBad, IsDerived, Backed;
  }

  /** The amendments of a message whose files the volume answered for. */
  lemma AmendsAre(folder: Folder, m: Msg, rehash: bool)
    requires Listed(m.status) && MessageAmends(folder, m, rehash).Some?
    ensures var amends, derived := MessageAmends(folder, m, rehash).value, DerivedAmends(folder, m, rehash);
      && !DerivedSilent(folder, m.files, rehash)
      && (OriginalsBacked(folder, m.files, rehash) ==> amends == derived)
      && (!OriginalsBacked(folder, m.files, rehash) ==> amends != [] && !Listed(amends[|amends| - 1].status))
  {
    NoneBad(folder, m.files, rehash);
    hide OriginalsBacked, FirstBad, DerivedAmends, DerivedSilent, OriginalState;
  }

  lemma KeptBacked(folder: Folder, files: seq<FileRec>, rehash: bool)
    requires OriginalsBacked(folder, files, rehash)
    ensures forall f :: f in KeptFiles(folder, files, rehash) ==> Backed(folder, f, rehash)
  {
    hide IsDerived, Backed;
  }

  lemma SettledIsBacked(folder: Folder, m: Msg, rehash: bool)
    requires MessageAmends(folder, m, rehash).Some?
    ensures var e := Settled(folder, m, rehash);
      && (Listed(e.status) ==> forall f :: f in e.files ==> Backed(folder, f, rehash))
      && (!Listed(m.status) ==> e == m)
      && (Listed(m.status) ==>
            (Listed(e.status) <==> OriginalsBacked(folder, m.files, rehash))
            && (Listed(e.status) ==> e.files == KeptFiles(folder, m.files, rehash)))
  {
    if Listed(m.status) {
      AmendsAre(folder, m, rehash);
      DerivedAmendsAre(folder, m, rehash);
      if OriginalsBacked(folder, m.files, rehash) {
        KeptBacked(folder, m.files, rehash);
      }
      hide MessageAmends, OriginalsBacked, KeptFiles, DerivedAmends, DerivedSilent, Backed;
    }
  }

  lemma BackedIsSettled(folder: Folder, m: Msg, rehash: bool)
    requires Listed(m.status) ==> forall f :: f in m.files ==> Backed(folder, f, rehash)
    ensures MessageAmends(folder, m, rehash) == Some([])
  {
    if Listed(m.status) {
      AllKept(folder, m.files, rehash);
      DroppedAreTold(folder, m.files, rehash);
    }
  }

  lemma {:induction false} AllKept(folder: Folder, files: seq<FileRec>, rehash: bool)
    requires forall f :: f in files ==> Backed(folder, f, rehash)
    ensures |KeptFiles(folder, files, rehash)| == |files|
  {
    if files != [] {
      AllKept(folder, files[..|files| - 1], rehash);
    }
  }

  lemma {:induction false} AllSettled(folder: Folder, ms: seq<Msg>, rehash: bool)
    requires forall i :: 0 <= i < |ms| ==> MessageAmends(folder, ms[i], rehash) == Some([])
    ensures AllAmends(folder, ms, rehash) == Some([])
  {
    if ms != [] {
      hide MessageAmends;
      AllSettled(folder, ms[..|ms| - 1], rehash);
      assert MessageAmends(folder, ms[|ms| - 1], rehash) == Some([]);
      assert AllAmends(folder, ms[..|ms| - 1], rehash) == Some([]);
      var none: seq<Msg> := [];
      assert none + none == none;
    }
  }

  /** After a check that was answered: every file of an exported message is backed by the folder, a
      message stays exported exactly when its originals are (a lost derived file is dropped, never a
      failure), the record is still well formed, and a second check over the same folder appends
      nothing. */
  lemma PresenceIsSound(planned: nat, lines: seq<Line>, folder: Folder, rehash: bool)
    requires WellFormed(planned, lines) && AllAmends(folder, Effective(lines), rehash).Some?
    ensures var ms := Effective(lines);
      var after := WithAmends(lines, AllAmends(folder, ms, rehash).value);
      && WellFormed(planned, after) && |Effective(after)| == |ms|
      && (forall i, f :: 0 <= i < |ms| && Listed(Effective(after)[i].status) && f in Effective(after)[i].files
            ==> Backed(folder, f, rehash))
      && (forall i :: 0 <= i < |ms| && Listed(ms[i].status) ==>
            (Listed(Effective(after)[i].status)
             <==> forall f :: f in ms[i].files && !IsDerived(f.role) ==> Backed(folder, f, rehash)))
      && AllAmends(folder, Effective(after), rehash) == Some([])
  {
    var ms := Effective(lines);
    var after := WithAmends(lines, AllAmends(folder, ms, rehash).value);
    EffectiveAfter(planned, lines, folder, rehash);
    EffectiveIncreasing(planned, lines);
    forall i | 0 <= i < |ms|
      ensures MessageAmends(folder, ms[i], rehash).Some?
      ensures MessageAmends(folder, Effective(after)[i], rehash) == Some([])
    {
      AmendOfOne(folder, ms, rehash, planned, i);
      SettledIsBacked(folder, ms[i], rehash);
      BackedIsSettled(folder, Effective(after)[i], rehash);
    }
    forall i | 0 <= i < |ms| ensures Effective(after)[i] == Settled(folder, ms[i], rehash) {
      SettledIsBacked(folder, ms[i], rehash);
    }
    AllSettled(folder, Effective(after), rehash);
    forall i, f | 0 <= i < |ms| && Listed(Effective(after)[i].status) && f in Effective(after)[i].files
      ensures Backed(folder, f, rehash)
    {
      SettledIsBacked(folder, ms[i], rehash);
    }
    forall i | 0 <= i < |ms| && Listed(ms[i].status)
      ensures Listed(Effective(after)[i].status)
        <==> forall f :: f in ms[i].files && !IsDerived(f.role) ==> Backed(folder, f, rehash)
    {
      SettledIsBacked(folder, ms[i], rehash);
    }
  }

  // ---- when the volume does not answer, and what a loss amends to

  /** The volume does not answer for a derived file: not to a look, or not to the hash a re-hash needs. */
  predicate SilentCopy(folder: Folder, f: FileRec, rehash: bool) {
    folder(f.path).look == NoAnswer || (rehash && folder(f.path).look.Regular? && folder(f.path).hash == HashNoAnswer)
  }

  /** The same for an original, of which a hash that meets no regular file is no answer either. */
  predicate SilentOriginal(folder: Folder, f: FileRec, rehash: bool) {
    || folder(f.path).look == NoAnswer
    || (rehash && folder(f.path).look.Regular?
        && (folder(f.path).hash == HashNoAnswer || folder(f.path).hash == HashNotRegular))
  }

  /** The first original of a message that its folder does not back. */
  ghost predicate FirstUnbacked(folder: Folder, files: seq<FileRec>, rehash: bool, k: nat) {
    && k < |files| && !IsDerived(files[k].role) && !Backed(folder, files[k], rehash)
    && forall j :: 0 <= j < k && !IsDerived(files[j].role) ==> Backed(folder, files[j], rehash)
  }

  /** A message the volume does not answer for: about one of its derived files, or about the first original that
      is not backed. */
  ghost predicate SilentFor(folder: Folder, m: Msg, rehash: bool) {
    Listed(m.status)
    && ((exists f :: f in m.files && IsDerived(f.role) && SilentCopy(folder, f, rehash))
        || exists k: nat :: FirstUnbacked(folder, m.files, rehash, k) && SilentOriginal(folder, m.files[k], rehash))
  }

  lemma {:induction false} SilentCopies(folder: Folder, files: seq<FileRec>, rehash: bool)
    ensures DerivedSilent(folder, files, rehash) <==>
      exists f :: f in files && IsDerived(f.role) && SilentCopy(folder, f, rehash)
  {
    if files != [] {
      var front, last := files[..|files| - 1], files[|files| - 1];
      SilentCopies(folder, front, rehash);
      assert files == front + [last];
      assert DerivedState(folder, last, rehash).Unanswered? <==> SilentCopy(folder, last, rehash);
      hide DerivedState, SilentCopy, IsDerived;
    }
  }

  lemma FirstUnbackedIs(folder: Folder, files: seq<FileRec>, rehash: bool, k: nat)
    ensures FirstUnbacked(folder, files, rehash, k) <==> k < |files| && FirstBad(folder, files, rehash, 0) == k
  {
    hide FirstBad, IsDerived, Backed;
  }

  lemma MessageSilent(folder: Folder, m: Msg, rehash: bool)
    ensures MessageAmends(folder, m, rehash).None? <==> SilentFor(folder, m, rehash)
  {
    SilentCopies(folder, m.files, rehash);
    var bad := FirstBad(folder, m.files, rehash, 0);
    forall k: nat ensures FirstUnbacked(folder, m.files, rehash, k) <==> k < |m.files| && bad == k {
      FirstUnbackedIs(folder, m.files, rehash, k);
    }
    if bad < |m.files| {
      assert FirstUnbacked(folder, m.files, rehash, bad);
      assert OriginalState(folder, m.files[bad], rehash).Unanswered? <==> SilentOriginal(folder, m.files[bad], rehash);
    }
    hide OriginalState, SilentOriginal, SilentCopy, DerivedSilent, FirstBad, FirstUnbacked, DerivedAmends, IsDerived;
  }

  /** Nothing is appended exactly when the volume does not answer about a derived file of some exported message, or
      about the first of its originals that is not backed: a dead volume amends no message. */
  lemma {:induction false} SilenceIsExact(folder: Folder, ms: seq<Msg>, rehash: bool)
    ensures AllAmends(folder, ms, rehash).None? <==> exists i :: 0 <= i < |ms| && SilentFor(folder, ms[i], rehash)
  {
    if ms != [] {
      var front, last := ms[..|ms| - 1], ms[|ms| - 1];
      SilenceIsExact(folder, front, rehash);
      MessageSilent(folder, last, rehash);
      hide MessageAmends, SilentFor;
      if i :| 0 <= i < |ms| && SilentFor(folder, ms[i], rehash) {
        assert i < |front| ==> front[i] == ms[i];
      }
      if i :| 0 <= i < |front| && SilentFor(folder, front[i], rehash) {
        assert ms[i] == front[i];
      }
    }
  }

  /** What a message whose original is lost becomes. It lists no file and can be retried, unless Finish as partial
      finds that the file is gone or no file: then it was not attempted. A file that is there was damaged. */
  lemma LostOriginalIs(folder: Folder, m: Msg, rehash: bool, k: nat)
    requires Listed(m.status) && MessageAmends(folder, m, rehash).Some? && FirstUnbacked(folder, m.files, rehash, k)
    ensures var e, gone := Settled(folder, m, rehash), !folder(m.files[k].path).look.Regular?;
      && e.n == m.n && e.amend && e.files == [] && e.notes == []
      && e.status == (if rehash && gone then NotAttempted else FailedMsg) && (e.retryable <==> e.status == FailedMsg)
      && e.reason == if !gone then "damaged when the computer stopped"
                     else if rehash then "the file was no longer there when the export was finished"
                     else "the exported file " + m.files[k].path + " was no longer in the export folder when it was finished"
  {
    FirstUnbackedIs(folder, m.files, rehash, k);
    hide FirstBad, DerivedAmends, DerivedSilent;
  }

  /** How the loss of a derived file is told: it is gone, or it is there with other bytes. */
  predicate ToldAs(folder: Folder, f: FileRec, why: string) {
    why == if folder(f.path).look.Regular? then "it was damaged when the computer stopped"
           else "it was no longer in the export folder when the export was finished"
  }

  /** A derived file of the role that the folder does not back. */
  predicate Dropped(folder: Folder, f: FileRec, rehash: bool) { IsDerived(f.role) && !Backed(folder, f, rehash) }

  predicate CopyLost(folder: Folder, f: FileRec, rehash: bool) { f.role == DerivedHTML && Dropped(folder, f, rehash) }

  /** The first readable copy that is lost. */
  ghost predicate FirstCopyLost(folder: Folder, files: seq<FileRec>, rehash: bool, k: nat) {
    && k < |files| && CopyLost(folder, files[k], rehash)
    && forall j :: 0 <= j < k ==> !CopyLost(folder, files[j], rehash)
  }

  /** A lost attachment of that path, and how its loss is told. */
  ghost predicate AttachTold(folder: Folder, files: seq<FileRec>, rehash: bool, path: string, why: string) {
    exists f :: f in files && IsDerivedAttach(f.role) && Dropped(folder, f, rehash) && f.path == path && ToldAs(folder, f, why)
  }

  lemma LossIs(folder: Folder, f: FileRec, rehash: bool)
    requires !SilentCopy(folder, f, rehash)
    ensures var state := DerivedState(folder, f, rehash);
      (state.Lost? <==> !Backed(folder, f, rehash)) && (state.Lost? ==> ToldAs(folder, f, DerivedWhy(state.loss)))
  {
  }

  lemma NotSilentFront(folder: Folder, files: seq<FileRec>, rehash: bool)
    requires files != [] && !DerivedSilent(folder, files, rehash)
    ensures var last := files[|files| - 1];
      && !DerivedSilent(folder, files[..|files| - 1], rehash)
      && (IsDerived(last.role) ==> !SilentCopy(folder, last, rehash))
  {
  }

  predicate TellsOf(folder: Folder, f: FileRec, rehash: bool, path: string, why: string) {
    IsDerivedAttach(f.role) && Dropped(folder, f, rehash) && f.path == path && ToldAs(folder, f, why)
  }

  lemma ToldMore(folder: Folder, files: seq<FileRec>, rehash: bool, path: string, why: string)
    requires files != []
    ensures AttachTold(folder, files, rehash, path, why) <==>
      AttachTold(folder, files[..|files| - 1], rehash, path, why) || TellsOf(folder, files[|files| - 1], rehash, path, why)
  {
    assert files == files[..|files| - 1] + [files[|files| - 1]];
    hide IsDerivedAttach, Dropped, ToldAs;
  }

  lemma NotesMore(folder: Folder, files: seq<FileRec>, rehash: bool, note: Note)
    requires files != [] && !DerivedSilent(folder, files, rehash)
    ensures note in LostNotes(folder, files, rehash) <==>
      note in LostNotes(folder, files[..|files| - 1], rehash)
      || (note.AttachmentLost? && TellsOf(folder, files[|files| - 1], rehash, note.path, note.why))
  {
    var last := files[|files| - 1];
    NotSilentFront(folder, files, rehash);
    if IsDerivedAttach(last.role) {
      LossIs(folder, last, rehash);
    }
    hide DerivedState, DerivedWhy, Backed, SilentCopy, DerivedSilent;
  }

  lemma {:induction false} AttachNotes(folder: Folder, files: seq<FileRec>, rehash: bool, note: Note)
    requires !DerivedSilent(folder, files, rehash)
    ensures note in LostNotes(folder, files, rehash) <==>
      note.AttachmentLost? && AttachTold(folder, files, rehash, note.path, note.why)
  {
    if files != [] {
      NotSilentFront(folder, files, rehash);
      hide *;
      AttachNotes(folder, files[..|files| - 1], rehash, note);
      NotesMore(folder, files, rehash, note);
      if note.AttachmentLost? {
        ToldMore(folder, files, rehash, note.path, note.why);
      }
    }
  }

  lemma WhyMore(folder: Folder, files: seq<FileRec>, rehash: bool)
    requires files != [] && !DerivedSilent(folder, files, rehash)
    ensures var front, last := ReadableWhy(folder, files[..|files| - 1], rehash), files[|files| - 1];
      var why := ReadableWhy(folder, files, rehash);
      && (front.Some? || !CopyLost(folder, last, rehash) ==> why == front)
      && (front.None? && CopyLost(folder, last, rehash) ==> why.Some? && ToldAs(folder, last, why.value))
  {
    var last := files[|files| - 1];
    NotSilentFront(folder, files, rehash);
    if last.role == DerivedHTML {
      LossIs(folder, last, rehash);
    }
    hide DerivedState, DerivedWhy, Backed, SilentCopy, DerivedSilent, ToldAs;
  }

  lemma FirstMore(folder: Folder, files: seq<FileRec>, rehash: bool)
    requires files != []
    ensures var n := |files| - 1;
      && (forall k: nat :: FirstCopyLost(folder, files[..n], rehash, k) ==>
            files[..n][k] == files[k] && FirstCopyLost(folder, files, rehash, k))
      && (NoCopyLost(folder, files[..n], rehash) && CopyLost(folder, files[n], rehash) ==>
            FirstCopyLost(folder, files, rehash, n))
      && (NoCopyLost(folder, files[..n], rehash) && !CopyLost(folder, files[n], rehash) ==> NoCopyLost(folder, files, rehash))
  {
    var n := |files| - 1;
    hide CopyLost;
    assert forall k :: 0 <= k < n ==> files[..n][k] == files[k];
  }

  ghost predicate NoCopyLost(folder: Folder, files: seq<FileRec>, rehash: bool) {
    forall k :: 0 <= k < |files| ==> !CopyLost(folder, files[k], rehash)
  }

  lemma {:induction false} CopyNote(folder: Folder, files: seq<FileRec>, rehash: bool)
    requires !DerivedSilent(folder, files, rehash)
    ensures var why := ReadableWhy(folder, files, rehash);
      && (why.None? ==> NoCopyLost(folder, files, rehash))
      && (why.Some? ==> exists k: nat :: FirstCopyLost(folder, files, rehash, k) && ToldAs(folder, files[k], why.value))
  {
    if files != [] {
      var n := |files| - 1;
      NotSilentFront(folder, files, rehash);
      CopyNote(folder, files[..n], rehash);
      hide ReadableWhy, DerivedSilent, ToldAs, CopyLost, NoCopyLost;
      WhyMore(folder, files, rehash);
      FirstMore(folder, files, rehash);
      var why := ReadableWhy(folder, files[..n], rehash);
      if why.Some? {
        var k: nat :| FirstCopyLost(folder, files[..n], rehash, k) && ToldAs(folder, files[..n][k], why.value);
        hide FirstCopyLost;
        assert FirstCopyLost(folder, files, rehash, k) && files[..n][k] == files[k];
      } else if CopyLost(folder, files[n], rehash) {
        assert FirstCopyLost(folder, files, rehash, n);
      }
    }
  }

  /** What a message becomes that lost derived files only: it lists the files that are backed; it is left with its
      original where a readable copy is lost, and a first note says how the first such was; and a note for each lost
      attachment says how that was, and nothing else is said. */
  lemma LostCopiesAre(folder: Folder, m: Msg, rehash: bool)
    requires Listed(m.status) && MessageAmends(folder, m, rehash).Some? && OriginalsBacked(folder, m.files, rehash)
    requires exists f :: f in m.files && Dropped(folder, f, rehash)
    ensures var e := Settled(folder, m, rehash);
      var copy := exists k: nat :: FirstCopyLost(folder, m.files, rehash, k);
      && e.n == m.n && e.amend && !e.retryable && e.reason == "" && m.notes <= e.notes
      && (forall f :: f in e.files <==> f in m.files && !Dropped(folder, f, rehash))
      && e.status == (if copy then OriginalOnly else m.status)
      && (copy ==>
            && |e.notes| > |m.notes| && e.notes[|m.notes|].ReadableLost?
            && exists k: nat :: FirstCopyLost(folder, m.files, rehash, k) && ToldAs(folder, m.files[k], e.notes[|m.notes|].why))
      && forall note :: note in e.notes[|m.notes| + if copy then 1 else 0..] <==>
           note.AttachmentLost? && AttachTold(folder, m.files, rehash, note.path, note.why)
  {
    var why, lost := ReadableWhy(folder, m.files, rehash), LostNotes(folder, m.files, rehash);
    AmendedSo(folder, m, rehash);
    hide *;
    CopyNote(folder, m.files, rehash);
    CopyIs(folder, m.files, rehash);
    forall note ensures note in lost <==> note.AttachmentLost? && AttachTold(folder, m.files, rehash, note.path, note.why) {
      AttachNotes(folder, m.files, rehash, note);
    }
    AmendSays(m, KeptFiles(folder, m.files, rehash), why, lost);
  }

  lemma CopyIs(folder: Folder, files: seq<FileRec>, rehash: bool)
    ensures (exists k: nat :: FirstCopyLost(folder, files, rehash, k)) ==> !NoCopyLost(folder, files, rehash)
  {
  }

  lemma AmendedSo(folder: Folder, m: Msg, rehash: bool)
    requires Listed(m.status) && MessageAmends(folder, m, rehash).Some? && OriginalsBacked(folder, m.files, rehash)
    requires exists f :: f in m.files && Dropped(folder, f, rehash)
    ensures !DerivedSilent(folder, m.files, rehash)
    ensures Settled(folder, m, rehash)
      == DerivedAmend(m, KeptFiles(folder, m.files, rehash), ReadableWhy(folder, m.files, rehash), LostNotes(folder, m.files, rehash))
    ensures forall f :: f in KeptFiles(folder, m.files, rehash) <==> f in m.files && !Dropped(folder, f, rehash)
  {
    AmendsAre(folder, m, rehash);
    SomeDropped(folder, m.files, rehash);
    DroppedAreTold(folder, m.files, rehash);
    hide MessageAmends, DerivedSilent, OriginalsBacked, ReadableWhy, LostNotes, Backed, IsDerived, KeptFiles, DerivedAmend;
  }

  lemma AmendSays(m: Msg, kept: seq<FileRec>, why: Option<string>, lost: seq<Note>)
    ensures var e := DerivedAmend(m, kept, why, lost);
      && e.n == m.n && e.amend && !e.retryable && e.reason == "" && m.notes <= e.notes && e.files == kept
      && e.status == (if why.Some? then OriginalOnly else m.status)
      && (why.Some? ==> |e.notes| > |m.notes| && e.notes[|m.notes|] == ReadableLost(why.value))
      && |m.notes| + (if why.Some? then 1 else 0) <= |e.notes|
      && e.notes[|m.notes| + (if why.Some? then 1 else 0)..] == lost
  {
  }

  lemma SomeDropped(folder: Folder, files: seq<FileRec>, rehash: bool)
    requires exists f :: f in files && Dropped(folder, f, rehash)
    ensures |KeptFiles(folder, files, rehash)| < |files|
  {
    var f :| f in files && Dropped(folder, f, rehash);
    assert f !in KeptFiles(folder, files, rehash);
  }
}
