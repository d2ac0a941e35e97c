/** The signal watch of the delete verb: what each of its critical sections does to the fields its
    mutex guards. */
module DeleteWatch {
  import opened Wrappers

  datatype Signal = Interrupt | Terminate

  datatype Phase = Reading | PlanSaving | Asking | Holding | Changing | Finishing | Saving | Done

  /** The guarded fields. Channels are numbers: `next` is the next one to make, `closed` those that
      are closed. */
  datatype Watch = Watch(
    phase: Phase, held: Option<Signal>, savePath: string, owned: Option<string>,
    creating: Option<string>, made: Option<nat>, acting: Option<nat>, next: nat, closed: set<nat>)

  function SetPhase(w: Watch, p: Phase): Watch { w.(phase := p) }

  function SavePathIn(w: Watch, p: Phase, path: string): Watch { w.(phase := p, savePath := path) }

  /** The first section of creator: the file being made, and the channel that says it is made. */
  function StartCreating(w: Watch, path: string): Watch {
    w.(creating := Some(path), made := Some(w.next), next := w.next + 1)
  }

  /** Its second section, once open has returned: the file is the verb's own when it was made. */
  function EndCreating(w: Watch, path: string, ok: bool): Watch {
    w.(creating := None, made := None, owned := if ok then Some(path) else w.owned,
       closed := w.closed + (if w.made.Some? then {w.made.value} else {}))
  }

  function Disowned(w: Watch, then_: Phase): Watch { w.(owned := None, phase := then_) }

  /** A held signal refuses the delete right before its first change. */
  function BeganChanges(w: Watch): Watch { if w.held.Some? then w else w.(phase := Changing) }

  predicate StopsAtOnce(p: Phase) { p == Reading || p == PlanSaving }

  /** A signal with a file in creation waits for it, the mutex released. */
  predicate MustWait(w: Watch) { StopsAtOnce(w.phase) && w.made.Some? }

  function StartWaiting(w: Watch): Watch { w.(acting := Some(w.next), next := w.next + 1) }

  /** The rest of a signal's section, after its wait if it waited: it is held in the phases that
      hold one. */
  function Acted(w: Watch, s: Signal, waited: bool): Watch {
    w.(held := if w.held.None? && (w.phase == Holding || w.phase == Finishing) then Some(s) else w.held,
       acting := if waited || StopsAtOnce(w.phase) then None else w.acting)
  }

  class VerbWatch {
    var phase: Phase
    var held: Option<Signal>
    var savePath: string
    var owned: Option<string>
    var creating: Option<string>
    var made: Option<nat>
    var acting: Option<nat>
    var next: nat
    var closed: set<nat>

    constructor ()
      ensures View() == NEW_WATCH
    {
      phase, held, savePath, owned, creating := Reading, None, "", None, None;
      made, acting, next, closed := None, None, 0, {};
    }

    function View(): Watch
      reads this
    {
      Watch(phase, held, savePath, owned, creating, made, acting, next, closed)
    }

    method Set(p: Phase)
      modifies this
      ensures View() == SetPhase(old(View()), p)
    {
      phase := p;
    }

    method SavingTo(p: Phase, path: string)
      modifies this
      ensures View() == SavePathIn(old(View()), p, path)
    {
      phase, savePath := p, path;
    }

    method BeginChanges() returns (refused: Option<Signal>)
      modifies this
      ensures View() == BeganChanges(old(View()))
      ensures refused == old(held)
    {
      if held.Some? {
        return held;
      }
      phase := Changing;
      return None;
    }

    method Over() returns (h: Option<Signal>)
      modifies this
      ensures View() == SetPhase(old(View()), Done) && h == old(held)
    {
      phase := Done;
      h := held;
    }

    method CreatorStart(path: string)
      modifies this
      ensures View() == StartCreating(old(View()), path)
    {
      creating, made, next := Some(path), Some(next), next + 1;
    }

    method CreatorEnd(path: string, ok: bool) returns (wait: Option<nat>)
      modifies this
      ensures View() == EndCreating(old(View()), path, ok) && wait == old(acting)
    {
      var m := made;
      creating, made := None, None;
      if ok {
        owned := Some(path);
      }
      wait := acting;
      if m.Some? {
        closed := closed + {m.value};
      }
    }

    method Disown(then_: Phase)
      modifies this
      ensures View() == Disowned(old(View()), then_)
    {
      owned, phase := None, then_;
    }

    /** A signal takes the mutex: it waits for a file in creation, or acts at once. */
    method SignalEnter(s: Signal) returns (wait: Option<nat>, seen: Phase, first: bool)
      modifies this
      ensures MustWait(old(View())) ==> wait == old(made) && View() == StartWaiting(old(View()))
      ensures !MustWait(old(View())) ==> wait == None && View() == Acted(old(View()), s, false)
      ensures seen == old(phase) && first == old(held).None?
    {
      seen, first, wait := phase, held.None?, None;
      if (phase == Reading || phase == PlanSaving) && made.Some? {
        wait := made;
        acting, next := Some(next), next + 1;
        return;
      }
      SignalAct(s, false);
    }

    /** The end of a signal's section, also after its wait. */
    method SignalAct(s: Signal, waited: bool)
      modifies this
      ensures View() == Acted(old(View()), s, waited)
    {
      if waited || phase == Reading || phase == PlanSaving {
        acting := None;
      }
      if held.None? && (phase == Holding || phase == Finishing) {
        held := Some(s);
      }
    }
  }

  const NEW_WATCH := Watch(Reading, None, "", None, None, None, None, 0, {})
}
