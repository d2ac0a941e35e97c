/** delete-archive and its signals in every interleaving: the verb's thread in the order its
    function takes its phases, the signal's thread, the files made through creator, and the exit. */
module DeleteSignals {
  import opened Wrappers
  import opened DeleteWatch

  /** Where the verb's thread is. `plan` tells the plan file from the probe before it. */
  datatype Verb =
    | Ready
    | PlanReady
    | Opening(path: string, plan: bool, there: bool)
    | Opened(path: string, plan: bool, made: bool)
    | AwaitActing(path: string, plan: bool, made: bool, acting: nat)
    | HasFile(path: string, plan: bool)
    | Dropped(plan: bool)
    | Kept
    | AtQuestion
    | InHolding
    | NotBegun
    | InChanging
    | FinishedLine
    | AllOver
    | SavingRecord
    | Returned

  /** Where the signal's thread is; it holds the mutex in Removing and Leaving. */
  datatype Sig =
    | Idle
    | Waiting(signal: Signal, made: nat)
    | Removing(signal: Signal, unmade: Option<string>)
    | Leaving(signal: Signal, unmade: Option<string>, owned: bool, removed: bool)
    | Saying(signal: Signal, seen: Phase, first: bool, acting: Option<nat>)

  datatype PlanDetail = StillCreating | MayBeIncomplete | UnfinishedRemoved | NothingSaved

  /** What the line printed before an exit says. */
  datatype Says =
    | NothingChanged
    | NothingDeletedBut(path: string)
    | PlanNotSaved(path: string, detail: PlanDetail)
    | PartlyDeleted
    | RecordShown

  datatype Exit = Exit(phase: Phase, says: Says, owned: bool, removed: bool)

  /** `files` are those made through creator that are on the disk, `begun` that beginChanges let the
      delete go on, `heldSeen` that a signal took the mutex in a phase that holds it, `litter` that
      a removal of the verb's own failed. */
  datatype State = State(
    w: Watch, verb: Verb, sig: Sig, files: set<string>,
    begun: bool, heldSeen: bool, litter: bool, exit: Option<Exit>)

  const START := State(NEW_WATCH, Ready, Idle, {}, false, false, false, None)

  datatype Step =
    | Probe(path: string) | SavePlan(path: string) | CreatePlan | FileAppears | OpenReturns
    | TakeFile | GoOn | RemoveOwn(works: bool) | KeepPlan | Disown
    | Ask | Answered | Hold | Refused | Begin | FinishedStep | EndDelete
    | SaveRecord(path: string) | RecordSaved | Return
    | SignalArrives(signal: Signal) | FileMade | WaitTimesOut | SignalRemoves(works: bool) | ExitNow | SayLine

  predicate OfSignal(step: Step) {
    step.SignalArrives? || step.FileMade? || step.WaitTimesOut? || step.SignalRemoves? || step.ExitNow? || step.SayLine?
  }

  predicate Locked(sig: Sig) { sig.Removing? || sig.Leaving? }

  /** What each thread may do next; a section under the mutex only while the signal does not hold it. */
  predicate Enabled(s: State, step: Step) {
    && s.exit.None?
    && match step
       case Probe(_) => s.verb == Ready && !Locked(s.sig)
       case SavePlan(_) => s.verb == Ready && !Locked(s.sig)
       case CreatePlan => s.verb == PlanReady && !Locked(s.sig)
       case FileAppears => s.verb.Opening? && !s.verb.there
       case OpenReturns => s.verb.Opening?
       case TakeFile => s.verb.Opened? && !Locked(s.sig)
       case GoOn => s.verb.AwaitActing? && s.verb.acting in s.w.closed
       case RemoveOwn(_) => s.verb.HasFile?
       case KeepPlan => s.verb.HasFile? && s.verb.plan
       case Disown => (s.verb.Dropped? || s.verb == Kept) && !Locked(s.sig)
       case Ask => s.verb == Ready && !Locked(s.sig)
       case Answered => s.verb == AtQuestion && !Locked(s.sig)
       case Hold => s.verb == Ready && !Locked(s.sig)
       case Refused => s.verb == InHolding
       case Begin => s.verb == InHolding && !Locked(s.sig)
       case FinishedStep => (s.verb == InChanging || s.verb == NotBegun) && !Locked(s.sig)
       case EndDelete => (s.verb == NotBegun || s.verb == InChanging || s.verb == FinishedLine) && !Locked(s.sig)
       case SaveRecord(_) => s.verb == AllOver && !Locked(s.sig)
       case RecordSaved => s.verb == SavingRecord && !Locked(s.sig)
       case Return => s.verb == Ready || s.verb == AllOver
       case SignalArrives(_) => s.sig == Idle
       case FileMade => s.sig.Waiting? && s.sig.made in s.w.closed
       case WaitTimesOut => s.sig.Waiting?
       case SignalRemoves(_) => s.sig.Removing?
       case ExitNow => s.sig.Leaving?
       case SayLine => s.sig.Saying?
  }

  function WithFile(path: string, plan: bool, made: bool): Verb {
    if made then HasFile(path, plan) else Dropped(plan)
  }

  /** The rest of a signal's section. */
  function Act(s: State, signal: Signal, waited: bool): State {
    var w := Acted(s.w, signal, waited);
    var sig := if StopsAtOnce(s.w.phase) then Removing(signal, if waited then s.w.creating else None)
               else Saying(signal, s.w.phase, s.w.held.None?, if waited then s.w.acting else None);
    s.(w := w, sig := sig, heldSeen := s.heldSeen || s.w.phase == Holding || s.w.phase == Finishing)
  }

  function ExitLine(w: Watch, sig: Sig): Exit
    requires sig.Leaving?
  {
    var says :=
      if w.phase == Reading then
        (if sig.unmade.Some? then NothingDeletedBut(sig.unmade.value) else NothingChanged)
      else
        PlanNotSaved(w.savePath,
          if sig.unmade.Some? then StillCreating
          else if !sig.removed then MayBeIncomplete
          else if sig.owned then UnfinishedRemoved
          else NothingSaved);
    Exit(w.phase, says, sig.owned, sig.removed)
  }

  function OwnedSet(w: Watch): set<string> { if w.owned.Some? then {w.owned.value} else {} }

  function VerbDo(s: State, step: Step): State
    requires Enabled(s, step) && !OfSignal(step)
  {
    match step
    case Probe(path) => s.(w := StartCreating(s.w, path), verb := Opening(path, false, false))
    case SavePlan(path) => s.(w := SavePathIn(s.w, PlanSaving, path), verb := PlanReady)
    case CreatePlan => s.(w := StartCreating(s.w, s.w.savePath), verb := Opening(s.w.savePath, true, false))
    case FileAppears => s.(files := s.files + {s.verb.path}, verb := s.verb.(there := true))
    case OpenReturns => s.(verb := Opened(s.verb.path, s.verb.plan, s.verb.there))
    case TakeFile =>
      var v := s.verb;
      s.(w := EndCreating(s.w, v.path, v.made),
         verb := if s.w.acting.Some? then AwaitActing(v.path, v.plan, v.made, s.w.acting.value)
                 else WithFile(v.path, v.plan, v.made))
    case GoOn => s.(verb := WithFile(s.verb.path, s.verb.plan, s.verb.made))
    case RemoveOwn(works) =>
      s.(files := if works then s.files - {s.verb.path} else s.files,
         litter := s.litter || (!works && s.verb.path in s.files), verb := Dropped(s.verb.plan))
    case KeepPlan => s.(verb := Kept)
    case Disown =>
      if s.verb == Kept then s.(w := Disowned(s.w, Done), verb := Returned)
      else s.(w := Disowned(s.w, Reading), verb := if s.verb.plan then Returned else Ready)
    case Ask => s.(w := SetPhase(s.w, Asking), verb := AtQuestion)
    case Answered => s.(w := SetPhase(s.w, Reading), verb := Ready)
    case Hold => s.(w := SetPhase(s.w, Holding), verb := InHolding)
    case Refused => s.(verb := NotBegun)
    case Begin =>
      s.(w := BeganChanges(s.w), verb := if s.w.held.Some? then NotBegun else InChanging,
         begun := s.begun || s.w.held.None?)
    case FinishedStep => s.(w := SetPhase(s.w, Done), verb := FinishedLine)
    case EndDelete => s.(w := SetPhase(s.w, Done), verb := AllOver)
    case SaveRecord(path) => s.(w := SavePathIn(s.w, Saving, path), verb := SavingRecord)
    case RecordSaved => s.(w := SetPhase(s.w, Done), verb := AllOver)
    case Return => s.(verb := Returned)
  }

  function SigDo(s: State, step: Step): State
    requires Enabled(s, step) && OfSignal(step)
  {
    match step
    case SignalArrives(signal) =>
      if MustWait(s.w) then s.(w := StartWaiting(s.w), sig := Waiting(signal, s.w.made.value)) else Act(s, signal, false)
    case FileMade => Act(s, s.sig.signal, true)
    case WaitTimesOut => Act(s, s.sig.signal, true)
    case SignalRemoves(works) =>
      s.(files := if works then s.files - OwnedSet(s.w) else s.files,
         sig := Leaving(s.sig.signal, s.sig.unmade, s.w.owned.Some?, s.w.owned.None? || works))
    case ExitNow => s.(exit := Some(ExitLine(s.w, s.sig)))
    case SayLine =>
      var w := s.w.(closed := s.w.closed + (if s.sig.acting.Some? then {s.sig.acting.value} else {}));
      if s.sig.seen == Changing then s.(exit := Some(Exit(Changing, PartlyDeleted, false, true)))
      else if s.sig.seen == Saving then s.(exit := Some(Exit(Saving, RecordShown, false, true)))
      else s.(w := w, sig := Idle)
  }

  function Do(s: State, step: Step): State
    requires Enabled(s, step)
  {
    if OfSignal(step) then SigDo(s, step) else VerbDo(s, step)
  }

  ghost predicate Trace(s: State, steps: seq<Step>, end: State)
    decreases |steps|
  {
    if steps == [] then s == end else Enabled(s, steps[0]) && Trace(Do(s, steps[0]), steps[1..], end)
  }

  ghost predicate Reachable(s: State) {
    exists steps :: Trace(START, steps, s)
  }

  // ---- the invariant, one concern at a time

  predicate PlanPart(v: Verb) {
    match v
    case Opening(_, plan, _) => plan
    case Opened(_, plan, _) => plan
    case AwaitActing(_, plan, _, _) => plan
    case HasFile(_, plan) => plan
    case Dropped(plan) => plan
    case _ => v == PlanReady || v == Kept
  }

  predicate PhaseFits(s: State) {
    match s.verb
    case AtQuestion => s.w.phase == Asking
    case InHolding | NotBegun => s.w.phase == Holding
    case InChanging => s.w.phase == Changing
    case FinishedLine | AllOver => s.w.phase == Done
    case SavingRecord => s.w.phase == Saving
    case Returned => s.w.phase == Reading || s.w.phase == Done
    case _ => s.w.phase == if PlanPart(s.verb) then PlanSaving else Reading
  }

  predicate PathFits(s: State) {
    match s.verb
    case Opening(path, plan, _) => plan ==> path == s.w.savePath
    case Opened(path, plan, _) => plan ==> path == s.w.savePath
    case AwaitActing(path, plan, _, _) => plan ==> path == s.w.savePath
    case HasFile(path, plan) => plan ==> path == s.w.savePath
    case Dropped(plan) => plan && s.w.owned.Some? ==> s.w.owned == Some(s.w.savePath)
    case Kept => s.w.owned == Some(s.w.savePath)
    case _ => true
  }

  /** The verb is between creator's two sections. */
  predicate InOpen(v: Verb) { v.Opening? || v.Opened? }

  predicate CreatingFits(s: State) {
    && (InOpen(s.verb) ==> s.w.creating == Some(s.verb.path) && s.w.made.Some? && s.w.made.value !in s.w.closed)
    && (!InOpen(s.verb) ==> s.w.creating.None? && s.w.made.None?)
    && (s.w.made.Some? ==> s.w.made.value < s.w.next)
    && (s.w.acting.Some? ==> s.w.acting.value < s.w.next && s.w.acting.value !in s.w.closed && s.w.acting != s.w.made)
    && (forall c :: c in s.w.closed ==> c < s.w.next)
  }

  predicate OwnedFits(s: State) {
    match s.verb
    case AwaitActing(path, _, made, _) => s.w.owned == if made then Some(path) else None
    case HasFile(path, _) => s.w.owned == Some(path)
    case Dropped(_) | Kept => true
    case _ => s.w.owned.None?
  }

  predicate FilesFit(s: State) {
    s.litter ||
    match s.verb
    case Opening(path, _, there) => s.files == if there then {path} else {}
    case Opened(path, _, made) => s.files == if made then {path} else {}
    case AwaitActing(_, _, _, _) | HasFile(_, _) | Kept => s.files <= OwnedSet(s.w)
    case Returned => s.w.phase == Done || s.files == {}
    case _ => s.files == {}
  }

  /** The delete is over and its record is being saved, or was. */
  predicate RecordOwed(v: Verb) { v == SavingRecord || v == AllOver || v == Returned }

  predicate SigFits(s: State) {
    match s.sig
    case Idle => s.w.acting.None? && !s.verb.AwaitActing?
    case Waiting(_, made) =>
      && StopsAtOnce(s.w.phase) && s.w.acting.Some?
      && (InOpen(s.verb) || s.verb.AwaitActing?)
      && (InOpen(s.verb) ==> s.w.made == Some(made))
      && (s.verb.AwaitActing? ==> s.verb.acting == s.w.acting.value && made in s.w.closed)
    case Removing(_, unmade) => StopsAtOnce(s.w.phase) && unmade == s.w.creating && s.w.acting.None?
    case Leaving(_, unmade, owned, removed) =>
      && StopsAtOnce(s.w.phase) && unmade == s.w.creating && s.w.acting.None?
      && owned == s.w.owned.Some? && (owned || removed)
      && (removed && !s.litter ==> s.files !! OwnedSet(s.w))
    case Saying(_, seen, _, acting) =>
      && s.w.acting.None? && acting.None? && !s.verb.AwaitActing? && !StopsAtOnce(seen)
      && (seen == Changing ==> s.begun) && (seen == Saving ==> RecordOwed(s.verb))
  }

  predicate AwaitFits(s: State) {
    s.verb.AwaitActing? ==> s.verb.acting !in s.w.closed && s.verb.acting < s.w.next
  }

  predicate HeldFits(s: State) {
    && (s.begun ==> s.w.held.None? && !s.heldSeen)
    && (s.begun ==> s.w.phase == Changing || s.w.phase == Done || s.w.phase == Saving)
    && (s.w.phase == Changing ==> s.begun)
    && (s.heldSeen <==> s.w.held.Some?)
  }

  /** What the printed line names. */
  predicate Names(e: Exit, f: string) {
    || e.says == NothingDeletedBut(f)
    || e.says == PlanNotSaved(f, StillCreating)
    || e.says == PlanNotSaved(f, MayBeIncomplete)
  }

  /** What an exit says, by what the watch has when the process ends: the file in creation, the file owned and
      whether it could be removed. */
  predicate ExitSays(s: State, e: Exit) {
    && (e.phase == Reading ==>
          e.says == if s.w.creating.Some? then NothingDeletedBut(s.w.creating.value) else NothingChanged)
    && (e.phase == PlanSaving ==>
          && e.says.PlanNotSaved? && e.says.path == s.w.savePath
          && (e.says.detail == StillCreating <==> s.w.creating.Some?)
          && (e.says.detail == MayBeIncomplete <==> s.w.creating.None? && !e.removed)
          && (e.says.detail == UnfinishedRemoved <==> s.w.creating.None? && e.removed && s.w.owned.Some?)
          && (e.says.detail == NothingSaved <==> s.w.creating.None? && e.removed && s.w.owned.None?))
  }

  predicate ExitFits(s: State) {
    s.exit.Some? ==>
      var e := s.exit.value;
      && (e.says == PartlyDeleted ==> s.begun && e.phase == Changing)
      && (e.says == RecordShown ==> RecordOwed(s.verb) && e.phase == Saving)
      && (StopsAtOnce(e.phase) ==> e.phase == s.w.phase && e.owned == s.w.owned.Some? && ExitSays(s, e))
      && (!e.says.PartlyDeleted? && !e.says.RecordShown? ==> !s.begun && StopsAtOnce(e.phase))
      && (StopsAtOnce(e.phase) && !s.litter ==>
            forall f :: f in s.files ==> (Names(e, f) <==> !(e.phase == Reading && e.owned && !e.removed)))
      && (StopsAtOnce(e.phase) && !s.litter && e.removed ==> forall f :: f in s.files ==> s.w.creating == Some(f))
  }

  predicate Inv(s: State) {
    && PhaseFits(s) && PathFits(s) && CreatingFits(s) && OwnedFits(s) && FilesFit(s) && SigFits(s)
    && AwaitFits(s) && HeldFits(s) && ExitFits(s)
  }

  predicate OfCreator(step: Step) {
    step.Probe? || step.CreatePlan? || step.FileAppears? || step.OpenReturns? || step.TakeFile? || step.GoOn?
    || step.RemoveOwn? || step.KeepPlan? || step.Disown?
  }

  lemma InvOpening(s: State, step: Step)
    requires Inv(s) && Enabled(s, step) && (step.Probe? || step.CreatePlan? || step.FileAppears? || step.OpenReturns?)
    ensures Inv(VerbDo(s, step))
  {
  }

  lemma InvTaken(s: State, step: Step)
    requires Inv(s) && Enabled(s, step) && (step.TakeFile? || step.GoOn?)
    ensures Inv(VerbDo(s, step))
  {
  }

  lemma InvDropped(s: State, step: Step)
    requires Inv(s) && Enabled(s, step) && (step.RemoveOwn? || step.KeepPlan? || step.Disown?)
    ensures Inv(VerbDo(s, step))
  {
  }

  lemma InvPhases(s: State, step: Step)
    requires Inv(s) && Enabled(s, step) && !OfSignal(step) && !OfCreator(step)
    ensures Inv(VerbDo(s, step))
  {
  }

  lemma InvStartWait(s: State, signal: Signal)
    requires Inv(s) && Enabled(s, SignalArrives(signal)) && MustWait(s.w)
    ensures Inv(SigDo(s, SignalArrives(signal)))
  {
  }

  lemma InvActNow(s: State, signal: Signal)
    requires Inv(s) && s.exit.None? && s.sig == Idle && !MustWait(s.w)
    ensures Inv(Act(s, signal, false))
  {
    assert StopsAtOnce(s.w.phase) ==> s.w.creating.None?;
  }

  lemma InvWaited(s: State)
    requires Inv(s) && s.exit.None? && s.sig.Waiting?
    ensures Inv(Act(s, s.sig.signal, true))
  {
  }

  lemma InvRemoves(s: State, step: Step)
    requires Inv(s) && Enabled(s, step) && step.SignalRemoves?
    ensures Inv(SigDo(s, step))
  {
  }

  lemma InvExit(s: State)
    requires Inv(s) && Enabled(s, ExitNow)
    ensures Inv(SigDo(s, ExitNow))
  {
    var e := ExitLine(s.w, s.sig);
    if !s.litter {
      forall f | f in s.files ensures Names(e, f) <==> !(e.phase == Reading && e.owned && !e.removed) {
        assert s.sig.unmade == Some(f) || (s.w.owned == Some(f) && !s.sig.removed);
      }
    }
  }

  lemma InvSay(s: State)
    requires Inv(s) && Enabled(s, SayLine)
    ensures Inv(SigDo(s, SayLine))
  {
    assert s.w.closed + {} == s.w.closed;
    var t := SigDo(s, SayLine);
    assert t.w == s.w && t.verb == s.verb && t.files == s.files;
    assert FilesFit(t) && OwnedFits(t) && PathFits(t) && PhaseFits(t) && CreatingFits(t);
  }

  lemma {:induction false} InvTrace(s: State, steps: seq<Step>, end: State)
    requires Inv(s) && Trace(s, steps, end)
    ensures Inv(end)
    decreases |steps|
  {
    hide Inv;
    if steps != [] {
      InvStep(s, steps[0]);
      InvTrace(Do(s, steps[0]), steps[1..], end);
    }
  }

  lemma InvStep(s: State, step: Step)
    requires Inv(s) && Enabled(s, step)
    ensures Inv(Do(s, step))
  {
    hide Inv;
    hide VerbDo;
    hide SigDo;
    if step.Probe? || step.CreatePlan? || step.FileAppears? || step.OpenReturns? {
      InvOpening(s, step);
    } else if step.TakeFile? || step.GoOn? {
      InvTaken(s, step);
    } else if OfCreator(step) {
      InvDropped(s, step);
    } else if !OfSignal(step) {
      InvPhases(s, step);
    } else {
      InvSignal(s, step);
    }
  }

  lemma InvSignal(s: State, step: Step)
    requires Inv(s) && Enabled(s, step) && OfSignal(step)
    ensures Inv(SigDo(s, step))
  {
    hide Inv;
    hide Act;
    match step
      case SignalArrives(signal) => if MustWait(s.w) { InvStartWait(s, signal); } else { InvActNow(s, signal); }
      case FileMade => InvWaited(s);
      case WaitTimesOut => InvWaited(s);
      case SignalRemoves(_) => InvRemoves(s, step);
      case ExitNow => InvExit(s);
      case SayLine => InvSay(s);
  }

  lemma ReachableInv(s: State)
    requires Reachable(s)
    ensures Inv(s)
  {
    var steps :| Trace(START, steps, s);
    InvTrace(START, steps, s);
  }

  // ---- the promises

  /** A held signal and begun changes are never both true, and a signal that took the mutex while the
      delete held signals makes beginChanges refuse. */
  lemma HeldOrBegun(s: State)
    requires Reachable(s)
    ensures !(s.w.held.Some? && s.begun)
    ensures s.heldSeen ==> !s.begun
    ensures s.heldSeen <==> s.w.held.Some?
    ensures Enabled(s, Begin) ==> Do(s, Begin).begun == !s.heldSeen
    ensures Enabled(s, Begin) ==> Do(s, Begin).verb == if s.heldSeen then NotBegun else InChanging
  {
    ReachableInv(s);
  }

  /** An exit that says nothing was changed or deleted comes before any change, and one that says the
      delete did not finish comes only after its first. */
  lemma ExitTellsTheTruth(s: State)
    requires Reachable(s) && s.exit.Some?
    ensures var says := s.exit.value.says;
      && (says.NothingChanged? || says.NothingDeletedBut? || says.PlanNotSaved? ==> !s.begun)
      && (says.PartlyDeleted? ==> s.begun)
      && (says.RecordShown? ==> RecordOwed(s.verb))
  {
    ReachableInv(s);
  }

  /** An exit while reading or saving the plan names every file made through creator that it leaves,
      except exactly one its own removal failed on while reading. */
  lemma ExitNamesWhatItLeaves(s: State, f: string)
    requires Reachable(s) && s.exit.Some? && !s.litter && f in s.files
    requires StopsAtOnce(s.exit.value.phase)
    ensures Names(s.exit.value, f) <==> !(s.exit.value.phase == Reading && s.exit.value.owned && !s.exit.value.removed)
  {
    ReachableInv(s);
  }

  /** Where removal works, an exit while reading or saving the plan leaves only a file still in creation, and
      names it. */
  lemma ExitLeavesOnlyTheUnmade(s: State, f: string)
    requires Reachable(s) && s.exit.Some? && s.exit.value.removed && !s.litter && f in s.files
    requires StopsAtOnce(s.exit.value.phase)
    ensures s.w.creating == Some(f) && Names(s.exit.value, f)
  {
    ReachableInv(s);
  }

  /** What an exit says in a phase that stops at once is what the disk shows: nothing is left where it says that
      the unfinished file was removed, that nothing was saved or, its removal having worked, that nothing was
      changed; the plan at most where it says that it is in creation or incomplete, and incomplete whenever the
      plan was made and is there; and the file in creation at most where it names that. */
  lemma ExitSaysWhatIsThere(s: State)
    requires Reachable(s) && s.exit.Some? && StopsAtOnce(s.exit.value.phase) && !s.litter
    ensures var e := s.exit.value;
      && ExitSays(s, e)
      && (e.phase == PlanSaving ==>
            && (s.w.creating.Some? ==> s.w.creating == Some(s.w.savePath))
            && (s.w.owned.Some? ==> s.w.owned == Some(s.w.savePath))
            && (e.says.detail.UnfinishedRemoved? || e.says.detail.NothingSaved? ==> s.files == {})
            && s.files <= {s.w.savePath}
            && (s.files != {} && s.w.creating.None? ==> e.says.detail == MayBeIncomplete))
      && (e.phase == Reading ==>
            && (s.w.creating.Some? ==> s.files <= {s.w.creating.value})
            && (e.says.NothingChanged? && e.removed ==> s.files == {}))
  {
    ReachableInv(s);
    forall f | f in s.files && s.exit.value.removed ensures s.w.creating == Some(f) {
      ExitLeavesOnlyTheUnmade(s, f);
    }
    PlanPaths(s);
    hide Inv, Reachable;
  }

  lemma PlanPaths(s: State)
    requires Inv(s) && s.exit.Some? && StopsAtOnce(s.exit.value.phase) && !s.litter
    ensures s.exit.value.phase == s.w.phase && ExitSays(s, s.exit.value)
    ensures s.w.creating.Some? ==> s.files <= {s.w.creating.value}
    ensures s.w.phase == PlanSaving ==>
              && (s.w.creating.Some? ==> s.w.creating == Some(s.w.savePath))
              && (s.w.owned.Some? ==> s.w.owned == Some(s.w.savePath)) && s.files <= {s.w.savePath}
    ensures s.files != {} && s.w.creating.None? ==> !s.exit.value.removed
  {
    if s.files != {} && s.w.creating.None? {
      var f :| f in s.files;
    }
  }

  function SigRank(sig: Sig): nat {
    match sig
    case Waiting(_, _) => 3
    case Removing(_, _) => 2
    case Leaving(_, _, _, _) => 1
    case Saying(_, _, _, _) => 1
    case Idle => 0
  }

  function SignalSteps(steps: seq<Step>): nat {
    if steps == [] then 0 else (if OfSignal(steps[0]) then 1 else 0) + SignalSteps(steps[1..])
  }

  lemma AwaitStep(s: State, step: Step)
    requires Inv(s) && s.verb.AwaitActing? && Enabled(s, step)
    ensures OfSignal(step)
    ensures Do(s, step).exit.Some? || (Do(s, step).verb.AwaitActing? && SigRank(Do(s, step).sig) < SigRank(s.sig))
  {
  }

  /** A verb that waits for a signal to act never waits for good: the signal can always go on, and
      within three of its steps the process has ended. */
  lemma {:induction false} HandshakeEnds(s: State, steps: seq<Step>, end: State)
    requires Reachable(s) && s.exit.None? && s.verb.AwaitActing?
    requires Trace(s, steps, end) && SignalSteps(steps) >= SigRank(s.sig)
    ensures end.exit.Some?
  {
    ReachableInv(s);
    HandshakeRuns(s, steps, end);
  }

  lemma {:induction false} HandshakeRuns(s: State, steps: seq<Step>, end: State)
    requires Inv(s) && s.verb.AwaitActing? && s.exit.None?
    requires Trace(s, steps, end) && SignalSteps(steps) >= SigRank(s.sig)
    ensures end.exit.Some?
    decreases |steps|
  {
    if steps == [] {
      assert false;
    } else {
      var t := Do(s, steps[0]);
      AwaitStep(s, steps[0]);
      InvStep(s, steps[0]);
      if t.exit.Some? {
        NothingAfterExit(t, steps[1..], end);
      } else {
        HandshakeRuns(t, steps[1..], end);
      }
    }
  }

  lemma NothingAfterExit(s: State, steps: seq<Step>, end: State)
    requires s.exit.Some? && Trace(s, steps, end)
    ensures end == s
  {
  }

  // ---- what a signal comes to

  lemma VerbKeepsSig(s: State, step: Step)
    requires Enabled(s, step) && !OfSignal(step)
    ensures Do(s, step).sig == s.sig && Do(s, step).exit.None?
  {
  }

  lemma {:induction false} VerbRuns(s: State, steps: seq<Step>, end: State)
    requires s.exit.None? && Trace(s, steps, end) && SignalSteps(steps) == 0
    ensures end.sig == s.sig && end.exit.None?
    decreases |steps|
  {
    hide Do, Enabled;
    if steps != [] {
      VerbKeepsSig(s, steps[0]);
      VerbRuns(Do(s, steps[0]), steps[1..], end);
    }
  }

  lemma SaidWhere(s: State)
    requires s.exit.None? && s.sig.Saying?
    ensures var t := SigDo(s, SayLine);
      && (s.sig.seen == Changing ==> t.exit == Some(Exit(Changing, PartlyDeleted, false, true)))
      && (s.sig.seen == Saving ==> t.exit == Some(Exit(Saving, RecordShown, false, true)))
      && (s.sig.seen != Changing && s.sig.seen != Saving ==> t.exit.None? && t.sig == Idle)
  {
  }

  lemma {:induction false} SayingRuns(s: State, steps: seq<Step>, end: State)
    requires s.exit.None? && s.sig.Saying? && Trace(s, steps, end)
    ensures SignalSteps(steps) == 0 ==> end.exit.None?
    ensures SignalSteps(steps) >= 1 && s.sig.seen == Changing ==> end.exit == Some(Exit(Changing, PartlyDeleted, false, true))
    ensures SignalSteps(steps) >= 1 && s.sig.seen == Saving ==> end.exit == Some(Exit(Saving, RecordShown, false, true))
    ensures SignalSteps(steps) == 1 && s.sig.seen != Changing && s.sig.seen != Saving ==> end.exit.None? && end.sig == Idle
    decreases |steps|
  {
    if steps != [] {
      var t := Do(s, steps[0]);
      if OfSignal(steps[0]) {
        assert steps[0] == SayLine;
        SaidWhere(s);
        hide Do, Enabled;
        if t.exit.Some? {
          NothingAfterExit(t, steps[1..], end);
        } else if SignalSteps(steps) == 1 {
          VerbRuns(t, steps[1..], end);
        }
      } else {
        VerbKeepsSig(s, steps[0]);
        hide Do, Enabled;
        SayingRuns(t, steps[1..], end);
      }
    }
  }

  predicate Stopping(sig: Sig) { sig.Waiting? || sig.Removing? || sig.Leaving? }

  /** A step while a signal is about to end the process: it stays in its phase, and each of its own steps brings
      it nearer. */
  lemma StoppingStep(s: State, step: Step)
    requires Inv(s) && Stopping(s.sig) && Enabled(s, step)
    ensures var t := Do(s, step);
      && t.w.phase == s.w.phase && t.w.savePath == s.w.savePath
      && (t.exit.Some? ==> t.exit.value.phase == s.w.phase && OfSignal(step))
      && (t.exit.None? ==>
            Stopping(t.sig) && if OfSignal(step) then SigRank(t.sig) < SigRank(s.sig) else t.sig == s.sig)
  {
  }

  lemma {:induction false} StoppingRuns(s: State, steps: seq<Step>, end: State)
    requires Inv(s) && s.exit.None? && Stopping(s.sig)
    requires Trace(s, steps, end) && SignalSteps(steps) >= SigRank(s.sig)
    ensures end.exit.Some? && end.exit.value.phase == s.w.phase
    decreases |steps|
  {
    if steps == [] {
      assert false;
    } else {
      var t := Do(s, steps[0]);
      StoppingStep(s, steps[0]);
      InvStep(s, steps[0]);
      hide Do, Enabled, Inv;
      if t.exit.Some? {
        NothingAfterExit(t, steps[1..], end);
      } else {
        StoppingRuns(t, steps[1..], end);
      }
    }
  }

  /** What a signal comes to, by the phase it comes in, whatever the verb does meanwhile. While changing or saving
      the record its next step ends the process, with the line that says so; while reading or saving the plan the
      process has ended, in that phase, within two more of its steps, three where it waits for a file in creation;
      in the other phases it says its line, if any, and the verb goes on. */
  lemma SignalComesTo(s: State, signal: Signal, steps: seq<Step>, end: State)
    requires Reachable(s) && s.exit.None? && s.sig == Idle
    requires Trace(Do(s, SignalArrives(signal)), steps, end)
    ensures s.w.phase == Changing && SignalSteps(steps) >= 1 ==> end.exit == Some(Exit(Changing, PartlyDeleted, false, true))
    ensures s.w.phase == Saving && SignalSteps(steps) >= 1 ==> end.exit == Some(Exit(Saving, RecordShown, false, true))
    ensures (s.w.phase == Reading || s.w.phase == PlanSaving) && SignalSteps(steps) >= (if s.w.made.Some? then 3 else 2)
      ==> end.exit.Some? && end.exit.value.phase == s.w.phase
    ensures s.w.phase in {Asking, Holding, Finishing, Done} && SignalSteps(steps) <= 1
      ==> end.exit.None? && (SignalSteps(steps) == 1 ==> end.sig == Idle)
  {
    ReachableInv(s);
    var t := Do(s, SignalArrives(signal));
    InvStep(s, SignalArrives(signal));
    if StopsAtOnce(s.w.phase) {
      assert Stopping(t.sig) && t.w.phase == s.w.phase && SigRank(t.sig) == if s.w.made.Some? then 3 else 2;
      hide Do, Inv, Enabled;
      if SignalSteps(steps) >= SigRank(t.sig) {
        StoppingRuns(t, steps, end);
      }
    } else {
      assert t.sig.Saying? && t.sig.seen == s.w.phase && t.exit.None?;
      hide Do, Inv, Enabled;
      SayingRuns(t, steps, end);
    }
  }

  /** No interleaving comes to a stand: until the verb has returned or the process has exited, some
      thread can go on. */
  lemma NeverStuck(s: State) returns (step: Step)
    requires Reachable(s) && s.exit.None? && s.verb != Returned
    ensures Enabled(s, step)
  {
    ReachableInv(s);
    if s.sig.Removing? {
      return SignalRemoves(true);
    } else if s.sig.Leaving? {
      return ExitNow;
    } else if s.sig.Waiting? {
      return WaitTimesOut;
    }
    match s.verb
    case Ready => step := Ask;
    case PlanReady => step := CreatePlan;
    case Opening(_, _, _) => step := OpenReturns;
    case Opened(_, _, _) => step := TakeFile;
    case AwaitActing(_, _, _, _) => assert false; step := Ask;
    case HasFile(_, _) => step := RemoveOwn(true);
    case Dropped(_) => step := Disown;
    case Kept => step := Disown;
    case AtQuestion => step := Answered;
    case InHolding => step := Begin;
    case NotBegun => step := EndDelete;
    case InChanging => step := EndDelete;
    case FinishedLine => step := EndDelete;
    case AllOver => step := Return;
    case SavingRecord => step := RecordSaved;
  }

  lemma {:induction false} TraceThen(s: State, steps: seq<Step>, m: State, step: Step)
    requires Trace(s, steps, m) && Enabled(m, step)
    ensures Trace(s, steps + [step], Do(m, step))
    decreases |steps|
  {
    hide Do;
    hide Enabled;
    if steps == [] {
      assert [step][1..] == [];
    } else {
      assert (steps + [step])[1..] == steps[1..] + [step];
      TraceThen(Do(s, steps[0]), steps[1..], m, step);
    }
  }

  predicate Moves(s: State, step: Step, s': State) { Enabled(s, step) && Do(s, step) == s' }

  lemma ReachableThen(s: State, step: Step, s': State)
    requires Reachable(s) && Moves(s, step, s')
    ensures Reachable(s')
  {
    var steps :| Trace(START, steps, s);
    hide Do;
    hide Enabled;
    TraceThen(START, steps, s, step);
  }

  // ---- the verb, when no signal comes

  /** No signal is about, and the verb is between its steps. */
  predicate Quiet(s: State) {
    && s.exit.None? && s.sig == Idle && s.verb == Ready && s.w.phase == Reading
    && s.w.acting.None? && s.w.creating.None? && s.w.made.None? && s.w.owned.None? && s.w.held.None?
    && forall c :: c in s.w.closed ==> c < s.w.next
  }

  function InPhase(s: State, p: Phase, v: Verb): State { s.(w := s.w.(phase := p), verb := v) }

  lemma Chain(s: State, steps: seq<Step>, m: State, step: Step, e: State)
    requires Trace(s, steps, m) && Moves(m, step, e)
    ensures Trace(s, steps + [step], e)
  {
    hide Do, Enabled;
    TraceThen(s, steps, m, step);
  }

  lemma FirstStep(s: State, step: Step, e: State)
    requires Moves(s, step, e)
    ensures Trace(s, [step], e)
  {
    hide Do, Enabled;
    assert [step][1..] == [];
  }

  lemma QuestionSteps(s: State)
    requires Quiet(s)
    ensures Moves(s, Ask, InPhase(s, Asking, AtQuestion)) && Moves(InPhase(s, Asking, AtQuestion), Answered, s)
    ensures Moves(s, Hold, InPhase(s, Holding, InHolding))
    ensures Moves(InPhase(s, Holding, InHolding), Begin, InPhase(s, Changing, InChanging).(begun := true))
  {
  }

  lemma EndSteps(s: State)
    requires Quiet(s) && s.begun
    ensures Moves(InPhase(s, Changing, InChanging), FinishedStep, InPhase(s, Done, FinishedLine))
    ensures Moves(InPhase(s, Done, FinishedLine), EndDelete, InPhase(s, Done, AllOver))
    ensures Moves(InPhase(s, Changing, InChanging), EndDelete, InPhase(s, Done, AllOver))
  {
  }

  lemma SavingSteps(s: State, record: string)
    requires Quiet(s) && s.begun
    ensures var r := s.(w := s.w.(savePath := record));
      && Moves(InPhase(s, Done, AllOver), SaveRecord(record), InPhase(r, Saving, SavingRecord))
      && Moves(InPhase(r, Saving, SavingRecord), RecordSaved, InPhase(r, Done, AllOver))
      && Moves(InPhase(r, Done, AllOver), Return, InPhase(r, Done, Returned))
  {
  }

  /** A question asked and answered leaves the verb where it was. */
  lemma QuestionRound(s: State)
    requires Quiet(s)
    ensures Trace(s, [Ask], InPhase(s, Asking, AtQuestion)) && Trace(s, [Ask] + [Answered], s)
  {
    QuestionSteps(s);
    hide Trace, Moves, InPhase, Quiet;
    FirstStep(s, Ask, InPhase(s, Asking, AtQuestion));
    Chain(s, [Ask], InPhase(s, Asking, AtQuestion), Answered, s);
  }

  /** A delete no signal meets holds, then changes, says that it finished, or not, is over, saves its record and
      returns, each in its phase. */
  lemma DeleteRound(s: State, record: string, says: bool)
    requires Quiet(s)
    ensures Trace(s, [Hold], InPhase(s, Holding, InHolding))
    ensures var b := s.(begun := true);
      var r := b.(w := b.w.(savePath := record));
      var changed := [Hold] + [Begin];
      var over := if says then changed + [FinishedStep] + [EndDelete] else changed + [EndDelete];
      && Trace(s, changed, InPhase(b, Changing, InChanging)) && Trace(s, over, InPhase(b, Done, AllOver))
      && Trace(s, over + [SaveRecord(record)], InPhase(r, Saving, SavingRecord))
      && Trace(s, over + [SaveRecord(record)] + [RecordSaved] + [Return], InPhase(r, Done, Returned))
  {
    var b := s.(begun := true);
    var r := b.(w := b.w.(savePath := record));
    assert Quiet(b);
    QuestionSteps(s);
    EndSteps(b);
    SavingSteps(b, record);
    assert InPhase(s, Changing, InChanging).(begun := true) == InPhase(b, Changing, InChanging);
    hide *;
    FirstStep(s, Hold, InPhase(s, Holding, InHolding));
    var changed := [Hold] + [Begin];
    Chain(s, [Hold], InPhase(s, Holding, InHolding), Begin, InPhase(b, Changing, InChanging));
    var over := if says then changed + [FinishedStep] + [EndDelete] else changed + [EndDelete];
    if says {
      Chain(s, changed, InPhase(b, Changing, InChanging), FinishedStep, InPhase(b, Done, FinishedLine));
      Chain(s, changed + [FinishedStep], InPhase(b, Done, FinishedLine), EndDelete, InPhase(b, Done, AllOver));
    } else {
      Chain(s, changed, InPhase(b, Changing, InChanging), EndDelete, InPhase(b, Done, AllOver));
    }
    Chain(s, over, InPhase(b, Done, AllOver), SaveRecord(record), InPhase(r, Saving, SavingRecord));
    Chain(s, over + [SaveRecord(record)], InPhase(r, Saving, SavingRecord), RecordSaved, InPhase(r, Done, AllOver));
    Chain(s, over + [SaveRecord(record)] + [RecordSaved], InPhase(r, Done, AllOver), Return, InPhase(r, Done, Returned));
  }

  /** The watch while a file is made under the path, and once it was. */
  function Making(s: State, path: string): Watch {
    s.w.(creating := Some(path), made := Some(s.w.next), next := s.w.next + 1)
  }

  function MadeBy(s: State, path: string): Watch {
    s.w.(owned := Some(path), next := s.w.next + 1, closed := s.w.closed + {s.w.next})
  }

  lemma MakingSteps(s: State, path: string, plan: bool)
    requires s.exit.None? && s.sig == Idle && s.w.acting.None? && s.w.creating.None? && s.w.made.None?
    ensures var o := s.(w := Making(s, path), verb := Opening(path, plan, false));
      var f := o.(files := s.files + {path}, verb := Opening(path, plan, true));
      && (s.verb == Ready && !plan ==> Moves(s, Probe(path), o))
      && (s.verb == PlanReady && plan && path == s.w.savePath ==> Moves(s, CreatePlan, o))
      && Moves(o, FileAppears, f) && Moves(f, OpenReturns, f.(verb := Opened(path, plan, true)))
      && Moves(f.(verb := Opened(path, plan, true)), TakeFile, f.(w := MadeBy(s, path), verb := HasFile(path, plan)))
      && Moves(o, OpenReturns, o.(verb := Opened(path, plan, false)))
      && Moves(o.(verb := Opened(path, plan, false)), TakeFile,
               o.(w := MadeBy(s, path).(owned := s.w.owned), verb := Dropped(plan)))
  {
  }

  lemma RemovalSteps(s: State, path: string, plan: bool)
    requires s.exit.None? && s.sig == Idle && s.verb == HasFile(path, plan) && path in s.files
    ensures Moves(s, RemoveOwn(true), s.(files := s.files - {path}, verb := Dropped(plan)))
    ensures Moves(s, RemoveOwn(false), s.(litter := true, verb := Dropped(plan)))
    ensures plan ==> Moves(s, KeepPlan, s.(verb := Kept))
  {
  }

  lemma DisownSteps(s: State)
    requires s.exit.None? && s.sig == Idle
    ensures s.verb == Kept ==> Moves(s, Disown, s.(w := s.w.(owned := None, phase := Done), verb := Returned))
    ensures s.verb.Dropped? ==>
              Moves(s, Disown, s.(w := s.w.(owned := None, phase := Reading), verb := if s.verb.plan then Returned else Ready))
    ensures s.verb == Ready ==> forall path ::
              Moves(s, SavePlan(path), s.(w := s.w.(phase := PlanSaving, savePath := path), verb := PlanReady))
  {
  }

  lemma FileRound(s: State, path: string, plan: bool, end: Step, mid: State)
    requires s.exit.None? && s.sig == Idle && s.w.acting.None? && s.w.creating.None? && s.w.made.None?
    requires if plan then s.verb == PlanReady && path == s.w.savePath else s.verb == Ready
    requires Moves(s.(files := s.files + {path}, w := MadeBy(s, path), verb := HasFile(path, plan)), end, mid)
    ensures Trace(s, [if plan then CreatePlan else Probe(path)] + [FileAppears] + [OpenReturns] + [TakeFile] + [end], mid)
  {
    MakingSteps(s, path, plan);
    var first := if plan then CreatePlan else Probe(path);
    var o := s.(w := Making(s, path), verb := Opening(path, plan, false));
    var f := o.(files := s.files + {path}, verb := Opening(path, plan, true));
    var g := f.(verb := Opened(path, plan, true));
    var h := f.(w := MadeBy(s, path), verb := HasFile(path, plan));
    assert h == s.(files := s.files + {path}, w := MadeBy(s, path), verb := HasFile(path, plan));
    hide Trace, Moves, Making, MadeBy;
    FirstStep(s, first, o);
    Chain(s, [first], o, FileAppears, f);
    Chain(s, [first] + [FileAppears], f, OpenReturns, g);
    Chain(s, [first] + [FileAppears] + [OpenReturns], g, TakeFile, h);
    Chain(s, [first] + [FileAppears] + [OpenReturns] + [TakeFile], h, end, mid);
  }

  /** A probe leaves the verb where it was and no file, unless the verb cannot remove it. */
  lemma ProbeRound(s: State, path: string, works: bool)
    requires Quiet(s) && path !in s.files
    ensures Trace(s, [Probe(path)] + [FileAppears] + [OpenReturns] + [TakeFile] + [RemoveOwn(works)] + [Disown],
                  s.(w := s.w.(next := s.w.next + 1, closed := s.w.closed + {s.w.next}),
                     files := if works then s.files else s.files + {path}, litter := s.litter || !works))
  {
    var h := s.(files := s.files + {path}, w := MadeBy(s, path), verb := HasFile(path, false));
    RemovalSteps(h, path, false);
    assert s.files + {path} - {path} == s.files;
    var mid := if works then h.(files := s.files, verb := Dropped(false)) else h.(litter := true, verb := Dropped(false));
    DisownSteps(mid);
    var e := mid.(w := mid.w.(owned := None, phase := Reading), verb := Ready);
    assert e == s.(w := s.w.(next := s.w.next + 1, closed := s.w.closed + {s.w.next}),
                   files := if works then s.files else s.files + {path}, litter := s.litter || !works);
    hide Trace, Moves, Making, MadeBy;
    FileRound(s, path, false, RemoveOwn(works), mid);
    Chain(s, [Probe(path)] + [FileAppears] + [OpenReturns] + [TakeFile] + [RemoveOwn(works)], mid, Disown, e);
  }

  /** A plan is saved under its path and kept, or its file removed; either way the verb returns. */
  lemma PlanRound(s: State, path: string, keeps: bool)
    requires Quiet(s) && path !in s.files
    ensures var end := if keeps then KeepPlan else RemoveOwn(true);
      Trace(Do(s, SavePlan(path)), [CreatePlan] + [FileAppears] + [OpenReturns] + [TakeFile] + [end] + [Disown],
            s.(w := s.w.(phase := if keeps then Done else Reading, savePath := path, next := s.w.next + 1,
                         closed := s.w.closed + {s.w.next}),
               verb := Returned, files := if keeps then s.files + {path} else s.files))
    ensures Do(s, SavePlan(path)).w.phase == PlanSaving
  {
    DisownSteps(s);
    var p := s.(w := s.w.(phase := PlanSaving, savePath := path), verb := PlanReady);
    assert Do(s, SavePlan(path)) == p;
    var h := p.(files := s.files + {path}, w := MadeBy(p, path), verb := HasFile(path, true));
    RemovalSteps(h, path, true);
    assert s.files + {path} - {path} == s.files;
    var end := if keeps then KeepPlan else RemoveOwn(true);
    var mid := if keeps then h.(verb := Kept) else h.(files := s.files, verb := Dropped(true));
    DisownSteps(mid);
    var e := mid.(w := mid.w.(owned := None, phase := if keeps then Done else Reading), verb := Returned);
    hide Trace, Moves, Making, Do;
    FileRound(p, path, true, end, mid);
    Chain(p, [CreatePlan] + [FileAppears] + [OpenReturns] + [TakeFile] + [end], mid, Disown, e);
  }

  // A run that ends so: the probe is opened, made and taken, then a signal comes that cannot remove it.
  const OPENING := START.(w := NEW_WATCH.(creating := Some("p"), made := Some(0), next := 1), verb := Opening("p", false, false))
  const APPEARED := OPENING.(verb := Opening("p", false, true), files := {"p"})
  const OPENED := APPEARED.(verb := Opened("p", false, true))
  const TAKEN := OPENED.(w := NEW_WATCH.(owned := Some("p"), next := 1, closed := {0}), verb := HasFile("p", false))
  const REMOVING := TAKEN.(sig := Removing(Interrupt, None))
  const LEAVING := TAKEN.(sig := Leaving(Interrupt, None, true, false))
  const GONE := LEAVING.(exit := Some(Exit(Reading, NothingChanged, true, false)))

  lemma ProbeIsTaken()
    ensures Moves(START, Probe("p"), OPENING) && Moves(OPENING, FileAppears, APPEARED)
    ensures Moves(APPEARED, OpenReturns, OPENED) && Moves(OPENED, TakeFile, TAKEN)
  {
  }

  lemma SignalLeaves()
    ensures Moves(TAKEN, SignalArrives(Interrupt), REMOVING)
    ensures Moves(REMOVING, SignalRemoves(false), LEAVING) && Moves(LEAVING, ExitNow, GONE)
  {
  }

  /** It does happen: a probe file the signal cannot remove is left without a word. */
  lemma UnremovableProbeIsNotNamed()
    ensures exists s: State, f: string ::
      Reachable(s) && s.exit.Some? && !s.litter && f in s.files && !Names(s.exit.value, f)
  {
    assert Trace(START, [], START);
    assert GONE.exit.Some? && !GONE.litter && "p" in GONE.files && !Names(GONE.exit.value, "p");
    hide *;
    ProbeIsTaken();
    SignalLeaves();
    ReachableThen(START, Probe("p"), OPENING);
    ReachableThen(OPENING, FileAppears, APPEARED);
    ReachableThen(APPEARED, OpenReturns, OPENED);
    ReachableThen(OPENED, TakeFile, TAKEN);
    ReachableThen(TAKEN, SignalArrives(Interrupt), REMOVING);
    ReachableThen(REMOVING, SignalRemoves(false), LEAVING);
    ReachableThen(LEAVING, ExitNow, GONE);
  }
}
