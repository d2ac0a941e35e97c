/** The no-progress breaker of a run: a loop of ticks, the probe it sends when nothing moved for a window of
    awake time, and the stop it decides, while the run goes on beside it. A cancellation is taken under the
    mutex and made after it, so the run may move on in between. */
module Breaker {
  import opened Wrappers

  /** The stops, by what stopped: no answer, throttling, the sign-in, the archive; and the one another part
      of the program asks for when the sign-in changes. */
  datatype Stop = NoConnection | Throttled | SignInRefused | ArchiveGone | SignInMoved

  datatype Answer = RunOver | Gone | Fine | TooMany | Unauthorized | Forbidden | Silence

  /** A message's own context to cancel, with the stop it is told of, None when it is only listed. */
  datatype Cancel = Cancel(message: nat, stop: Option<Stop>)

  /** A tick reads how long the last one was ago and whether a capture has the run paused; the other events
      are the end of a probe or of a sign-in refresh, the loop's cancellation made, progress, a message's
      start or end, a change of the sign-in and a cancellation it asked for made, and the user's cancel. */
  datatype Event =
    | Tick(delta: nat, busy: bool) | Answered(answer: Answer) | Refreshed(ok: bool) | LoopCancels
    | Bump | Message(message: Option<nat>) | SignInChange | AskedCancels(i: nat) | UserCancel

  datatype Phase = Waiting | Probing | Refreshing | Cancelling(target: Cancel)

  /** `message` is the context in flight, `asked` what sign-in changes took and did not cancel yet, `cancels`
      the messages' contexts cancelled so far, and `walk` whether the walk's is. */
  datatype State = State(
    phase: Phase, progress: nat, lastSeq: nat, idle: nat, awake: nat, suspends: nat,
    fatal: Option<Stop>, message: Option<nat>, asked: seq<Cancel>, cancels: seq<Cancel>, walk: bool)

  datatype Limits = Limits(suspendAbove: nat, window: nat)

  function Start(): State { State(Waiting, 0, 0, 0, 0, 0, None, None, [], [], false) }

  /** The cancellation of the message in flight, if there is one. */
  function Taken(message: Option<nat>, stop: Option<Stop>): seq<Cancel> {
    if message.Some? then [Cancel(message.value, stop)] else []
  }

  function TickDone(lim: Limits, w: State, delta: nat, busy: bool): State {
    if delta > lim.suspendAbove then w.(suspends := w.suspends + 1, idle := 0, lastSeq := w.progress)
    else if busy then w.(lastSeq := w.progress)
    else
      var idle := if w.progress != w.lastSeq then 0 else w.idle + delta;
      w.(awake := w.awake + delta, idle := idle, lastSeq := w.progress,
         phase := if idle >= lim.window && w.fatal.None? then Probing else Waiting)
  }

  /** The loop after its probe: what was seen of the progress meanwhile is taken as seen. */
  function Resumed(w: State): State { w.(phase := Waiting, lastSeq := w.progress) }

  /** The loop with a cancellation to make, or none. */
  function Making(w: State, taken: seq<Cancel>): State {
    if taken == [] then Resumed(w) else w.(phase := Cancelling(taken[0]))
  }

  function Verdict(answer: Answer): Option<Stop> {
    match answer
    case Gone => Some(ArchiveGone)
    case TooMany => Some(Throttled)
    case Forbidden => Some(SignInRefused)
    case Silence => Some(NoConnection)
    case RunOver | Fine | Unauthorized => None
  }

  function LoopStop(w: State, stop: Stop): State {
    Making(w.(fatal := Some(stop)), Taken(w.message, Some(stop)))
  }

  function AnswerDone(w: State, answer: Answer): State {
    if Verdict(answer).Some? then LoopStop(w, Verdict(answer).value)
    else
      match answer
      case Fine => Making(w.(idle := 0, progress := w.progress + 1), Taken(w.message, None))
      case Unauthorized => w.(phase := Refreshing)
      case _ => Resumed(w)
  }

  function RefreshDone(w: State, ok: bool): State {
    if ok then Resumed(w.(idle := 0)) else LoopStop(w, SignInRefused)
  }

  predicate Enabled(w: State, e: Event) {
    match e
    case Tick(_, _) => w.phase == Waiting
    case Answered(_) => w.phase == Probing
    case Refreshed(_) => w.phase == Refreshing
    case LoopCancels => w.phase.Cancelling?
    case AskedCancels(i) => i < |w.asked|
    case _ => true
  }

  function Do(lim: Limits, w: State, e: Event): State {
    match e
    case Tick(delta, busy) => TickDone(lim, w, delta, busy)
    case Answered(answer) => AnswerDone(w, answer)
    case Refreshed(ok) => RefreshDone(w, ok)
    case LoopCancels =>
      if w.phase.Cancelling? then Resumed(w.(cancels := w.cancels + [w.phase.target])) else w
    case Bump => w.(progress := w.progress + 1)
    case Message(m) => w.(message := m)
    case SignInChange => w.(fatal := Some(SignInMoved), asked := w.asked + Taken(w.message, Some(SignInMoved)))
    case AskedCancels(i) =>
      if i < |w.asked| then w.(asked := w.asked[..i] + w.asked[i + 1..], cancels := w.cancels + [w.asked[i]]) else w
    case UserCancel => w.(walk := true)
  }

  /** The breaker as it runs; each method is one step under its mutex, or between two of them. */
  class Watch {
    const lim: Limits
    var phase: Phase
    var progress: nat
    var lastSeq: nat
    var idle: nat
    var awake: nat
    var suspends: nat
    var fatal: Option<Stop>
    var message: Option<nat>
    var asked: seq<Cancel>
    var cancels: seq<Cancel>
    var walk: bool

    function View(): State
      reads this
    {
      State(phase, progress, lastSeq, idle, awake, suspends, fatal, message, asked, cancels, walk)
    }

    constructor (lim: Limits)
      ensures this.lim == lim && View() == Start()
    {
      this.lim := lim;
      phase, progress, lastSeq, idle, awake, suspends := Waiting, 0, 0, 0, 0, 0;
      fatal, message, asked, cancels, walk := None, None, [], [], false;
    }

    /** One turn of loop. */
    method Turn(delta: nat, busy: bool)
      requires Enabled(View(), Tick(delta, busy))
      modifies this
      ensures View() == Do(lim, old(View()), Tick(delta, busy))
    {
      if delta > lim.suspendAbove {
        suspends := suspends + 1;
        idle := 0;
        lastSeq := progress;
        return;
      }
      if busy {
        lastSeq := progress;
        return;
      }
      awake := awake + delta;
      var seen := progress;
      if seen != lastSeq {
        idle, lastSeq := 0, seen;
      } else {
        idle := idle + delta;
      }
      if idle >= lim.window && fatal.None? {
        phase := Probing;
      }
    }

    /** fatalStop up to the end of its critical section: what it takes is cancelled after. */
    method FatalStop(stop: Stop) returns (taken: seq<Cancel>)
      modifies this`fatal
      ensures View() == old(View()).(fatal := Some(stop)) && taken == Taken(message, Some(stop))
    {
      fatal := Some(stop);
      taken := if message.Some? then [Cancel(message.value, Some(stop))] else [];
    }

    /** trip, from the probe's answer to the cancellation it is about to make. */
    method Trip(answer: Answer)
      requires Enabled(View(), Answered(answer))
      modifies this
      ensures View() == Do(lim, old(View()), Answered(answer))
    {
      var taken: seq<Cancel> := [];
      match answer {
        case RunOver =>
        case Gone => taken := FatalStop(ArchiveGone);
        case Fine =>
          idle := 0;
          taken := if message.Some? then [Cancel(message.value, None)] else [];
          progress := progress + 1;
        case TooMany => taken := FatalStop(Throttled);
        case Unauthorized =>
          phase := Refreshing;
          return;
        case Forbidden => taken := FatalStop(SignInRefused);
        case Silence => taken := FatalStop(NoConnection);
      }
      Leave(taken);
    }

    /** trip after the refresh a refused sign-in asks for. */
    method AfterRefresh(ok: bool)
      requires Enabled(View(), Refreshed(ok))
      modifies this
      ensures View() == Do(lim, old(View()), Refreshed(ok))
    {
      var taken: seq<Cancel> := [];
      if ok {
        idle := 0;
      } else {
        taken := FatalStop(SignInRefused);
      }
      Leave(taken);
    }

    method Leave(taken: seq<Cancel>)
      modifies this`phase, this`lastSeq
      ensures View() == Making(old(View()), taken)
    {
      if taken != [] {
        phase := Cancelling(taken[0]);
      } else {
        phase, lastSeq := Waiting, progress;
      }
    }

    /** The cancellation trip ends with. */
    method MakeCancel()
      requires Enabled(View(), LoopCancels)
      modifies this
      ensures View() == Do(lim, old(View()), LoopCancels)
    {
      cancels := cancels + [phase.target];
      phase, lastSeq := Waiting, progress;
    }

    /** StopForSignInChange, up to the cancellation it makes. */
    method SignInChanged()
      modifies this
      ensures View() == Do(lim, old(View()), SignInChange)
    {
      var taken := FatalStop(SignInMoved);
      asked := asked + taken;
    }
  }

  // ---- histories

  function After(lim: Limits, h: seq<Event>): State {
    if h == [] then Start() else Do(lim, After(lim, h[..|h| - 1]), h[|h| - 1])
  }

  ghost predicate Valid(lim: Limits, h: seq<Event>) {
    h != [] ==> Valid(lim, h[..|h| - 1]) && Enabled(After(lim, h[..|h| - 1]), h[|h| - 1])
  }

  /** The message in flight, by the events. */
  function InFlight(h: seq<Event>): Option<nat> {
    if h == [] then None
    else if h[|h| - 1].Message? then h[|h| - 1].message
    else InFlight(h[..|h| - 1])
  }

  /** What an event takes to cancel when so much is in flight. */
  function TakenAt(message: Option<nat>, e: Event): seq<Cancel> {
    match e
    case Answered(answer) => if Verdict(answer).Some? || answer == Fine then Taken(message, Verdict(answer)) else []
    case Refreshed(ok) => if ok then [] else Taken(message, Some(SignInRefused))
    case SignInChange => Taken(message, Some(SignInMoved))
    case _ => []
  }

  predicate IsCounted(lim: Limits, e: Event) { e.Tick? && e.delta <= lim.suspendAbove && !e.busy }

  /** The sum of the ticks that are neither suspends nor paused. */
  function AwakeTime(lim: Limits, h: seq<Event>): nat {
    if h == [] then 0
    else AwakeTime(lim, h[..|h| - 1]) + (if IsCounted(lim, h[|h| - 1]) then h[|h| - 1].delta else 0)
  }

  /** The loop reads the progress at every tick and when a probe is over, its cancellation made. */
  predicate IsLook(message: Option<nat>, e: Event) {
    || e.Tick? || e.LoopCancels?
    || (((e.Answered? && e.answer != Unauthorized) || e.Refreshed?) && TakenAt(message, e) == [])
  }

  /** Progress was made since the loop last looked; a good answer is progress too. */
  predicate NewProgress(h: seq<Event>) {
    h != [] &&
    var e, message := h[|h| - 1], InFlight(h[..|h| - 1]);
    e.Bump? || (e == Answered(Fine) && message.Some?) || (!IsLook(message, e) && NewProgress(h[..|h| - 1]))
  }

  /** The last event starts the window again: a suspend, progress seen on a counted tick, a good answer. */
  predicate IsReset(lim: Limits, h: seq<Event>)
    requires h != []
  {
    var e := h[|h| - 1];
    || (e.Tick? && e.delta > lim.suspendAbove)
    || (IsCounted(lim, e) && NewProgress(h[..|h| - 1]))
    || e == Answered(Fine)
    || e == Refreshed(true)
  }

  /** The counted time since the window last started. */
  function SinceReset(lim: Limits, h: seq<Event>): nat {
    if h == [] || IsReset(lim, h) then 0
    else SinceReset(lim, h[..|h| - 1]) + (if IsCounted(lim, h[|h| - 1]) then h[|h| - 1].delta else 0)
  }

  /** One step, on the clocks. */
  lemma StepTimes(lim: Limits, w: State, e: Event, moved: bool)
    requires Enabled(w, e) && w.progress >= w.lastSeq && (w.progress > w.lastSeq <==> moved)
    ensures var w' := Do(lim, w, e);
      var more := if IsCounted(lim, e) then e.delta else 0;
      var suspend := e.Tick? && e.delta > lim.suspendAbove;
      var reset := suspend || (IsCounted(lim, e) && moved) || e == Answered(Fine) || e == Refreshed(true);
      && w'.awake == w.awake + more && w'.idle == (if reset then 0 else w.idle + more)
      && w'.message == (if e.Message? then e.message else w.message)
      && w'.progress >= w'.lastSeq
      && (w'.progress > w'.lastSeq
          <==> e.Bump? || (e == Answered(Fine) && w.message.Some?) || (!IsLook(w.message, e) && moved))
  {
  }

  /** Over every history the awake time is exactly the sum of the counted ticks, and the idle time the
      counted time since the last reset. */
  lemma {:induction false} TimesAreExact(lim: Limits, h: seq<Event>)
    requires Valid(lim, h)
    ensures var w := After(lim, h);
      && w.awake == AwakeTime(lim, h) && w.idle == SinceReset(lim, h) && w.message == InFlight(h)
      && w.progress >= w.lastSeq && (w.progress > w.lastSeq <==> NewProgress(h))
  {
    if h != [] {
      var front := h[..|h| - 1];
      TimesAreExact(lim, front);
      StepTimes(lim, After(lim, front), h[|h| - 1], NewProgress(front));
      hide Do;
      hide IsLook;
      hide Enabled;
    }
  }

  /** A probe is sent exactly when a counted tick finds that a whole window was counted since the last reset
      and no stop was decided yet. */
  lemma ProbeNeedsWindow(lim: Limits, h: seq<Event>)
    requires Valid(lim, h) && h != [] && h[|h| - 1].Tick? && lim.window > 0
    ensures After(lim, h).phase == Probing <==>
      IsCounted(lim, h[|h| - 1]) && SinceReset(lim, h) >= lim.window && After(lim, h[..|h| - 1]).fatal.None?
  {
    TimesAreExact(lim, h);
    TimesAreExact(lim, h[..|h| - 1]);
  }

  // ---- the stop

  /** Once a stop is decided one is: and no probe starts after it. */
  lemma {:induction false} NoProbeAfterStop(lim: Limits, h: seq<Event>, i: nat)
    requires Valid(lim, h) && i <= |h| && After(lim, h[..i]).fatal.Some?
    ensures After(lim, h).fatal.Some?
    ensures i < |h| && h[|h| - 1].Tick? ==> After(lim, h).phase == Waiting
    decreases |h|
  {
    if i < |h| {
      assert h[..|h| - 1][..i] == h[..i];
      NoProbeAfterStop(lim, h[..|h| - 1], i);
    } else {
      assert h[..i] == h;
    }
  }

  predicate LoopStops(e: Event) {
    (e.Answered? && Verdict(e.answer).Some?) || e == Refreshed(false)
  }

  function LoopStopCount(h: seq<Event>): nat {
    if h == [] then 0 else LoopStopCount(h[..|h| - 1]) + (if LoopStops(h[|h| - 1]) then 1 else 0)
  }

  predicate Asking(w: State) { w.phase.Probing? || w.phase.Refreshing? }

  /** One step, on the stop and on the loop's asking. */
  lemma StepStops(lim: Limits, w: State, e: Event)
    requires Enabled(w, e)
    ensures var w' := Do(lim, w, e);
      && (LoopStops(e) ==> Asking(w) && w'.fatal.Some? && (w'.phase.Waiting? || w'.phase.Cancelling?))
      && (w.fatal.Some? && !Asking(w) ==> w'.fatal.Some? && (w'.phase.Waiting? || w'.phase.Cancelling?))
      && (Asking(w') && e.Tick? ==> w'.fatal.None?)
      && (Asking(w') && !e.Tick? ==> Asking(w) && (w'.fatal.Some? <==> w.fatal.Some? || e.SignInChange?))
  {
  }

  /** The loop itself decides at most one stop, whatever else happens beside it. */
  lemma {:induction false} LoopStopsOnce(lim: Limits, h: seq<Event>)
    requires Valid(lim, h)
    ensures LoopStopCount(h) <= 1
    ensures LoopStopCount(h) == 1 ==>
              After(lim, h).fatal.Some? && (After(lim, h).phase.Waiting? || After(lim, h).phase.Cancelling?)
  {
    if h != [] {
      LoopStopsOnce(lim, h[..|h| - 1]);
      StepStops(lim, After(lim, h[..|h| - 1]), h[|h| - 1]);
      hide Do, Enabled, LoopStops;
    }
  }

  /** The sign-in changed since the last tick. */
  predicate MovedSinceTick(h: seq<Event>) {
    h != [] && (h[|h| - 1].SignInChange? || (!h[|h| - 1].Tick? && MovedSinceTick(h[..|h| - 1])))
  }

  /** While the loop waits for its probe, a stop stands exactly when the sign-in changed meanwhile: only then
      does the loop's own stop take the place of another. */
  lemma {:induction false} StopDuringProbe(lim: Limits, h: seq<Event>)
    requires Valid(lim, h) && Asking(After(lim, h))
    ensures After(lim, h).fatal.Some? <==> MovedSinceTick(h)
  {
    if h != [] {
      StepStops(lim, After(lim, h[..|h| - 1]), h[|h| - 1]);
      hide Do, Enabled;
      if !h[|h| - 1].Tick? {
        StopDuringProbe(lim, h[..|h| - 1]);
      }
    }
  }

  /** A stop already decided is decided again only by a sign-in change, or by the loop when the sign-in
      changed during its probe. */
  lemma StopReplaced(lim: Limits, h: seq<Event>)
    requires Valid(lim, h) && h != [] && After(lim, h[..|h| - 1]).fatal.Some?
    requires h[|h| - 1].SignInChange? || LoopStops(h[|h| - 1])
    ensures h[|h| - 1].SignInChange? || MovedSinceTick(h[..|h| - 1])
  {
    if !h[|h| - 1].SignInChange? {
      StopDuringProbe(lim, h[..|h| - 1]);
    }
  }

  /** Without a sign-in change the stop decided first stays. */
  lemma {:induction false} StopStays(lim: Limits, h: seq<Event>, i: nat)
    requires Valid(lim, h) && i <= |h| && After(lim, h[..i]).fatal.Some?
    requires forall k :: 0 <= k < |h| ==> !h[k].SignInChange?
    ensures After(lim, h).fatal == After(lim, h[..i]).fatal
    decreases |h|
  {
    if i < |h| {
      var front := h[..|h| - 1];
      assert front[..i] == h[..i];
      StopStays(lim, front, i);
      if LoopStops(h[|h| - 1]) {
        StopReplaced(lim, h);
        NotMoved(front);
      }
    } else {
      assert h[..i] == h;
    }
  }

  lemma {:induction false} NotMoved(h: seq<Event>)
    requires forall k :: 0 <= k < |h| ==> !h[k].SignInChange?
    ensures !MovedSinceTick(h)
  {
    if h != [] {
      NotMoved(h[..|h| - 1]);
    }
  }

  /** The stop for a changed sign-in can be lost: one that comes while the loop waits for its probe gives way
      to what the probe decides. */
  lemma SignInStopIsLost(lim: Limits)
    requires 0 < lim.window <= lim.suspendAbove
    ensures var h := [Tick(lim.window, false), SignInChange, Answered(Silence)];
      Valid(lim, h) && After(lim, h).fatal == Some(NoConnection)
  {
    var e0, e1, e2 := Tick(lim.window, false), SignInChange, Answered(Silence);
    assert [e0, e1, e2][..2] == [e0, e1] && [e0, e1][..1] == [e0] && [e0][..0] == [];
    assert Valid(lim, []) && Valid(lim, [e0]) && After(lim, [e0]).phase == Probing;
    assert Valid(lim, [e0, e1]) && After(lim, [e0, e1]).phase == Probing;
    assert Valid(lim, [e0, e1, e2]);
  }

  /** The stop of the last event that decides one: the four answers that end a run, a refused refresh, and a
      changed sign-in. */
  function LastDecided(h: seq<Event>): Option<Stop> {
    if h == [] then None
    else
      match h[|h| - 1]
      case Answered(Gone) => Some(ArchiveGone)
      case Answered(TooMany) => Some(Throttled)
      case Answered(Forbidden) => Some(SignInRefused)
      case Answered(Silence) => Some(NoConnection)
      case Refreshed(false) => Some(SignInRefused)
      case SignInChange => Some(SignInMoved)
      case _ => LastDecided(h[..|h| - 1])
  }

  lemma StopOf(lim: Limits, w: State, e: Event)
    requires Enabled(w, e)
    ensures Do(lim, w, e).fatal
      == match e
         case Answered(Gone) => Some(ArchiveGone)
         case Answered(TooMany) => Some(Throttled)
         case Answered(Forbidden) => Some(SignInRefused)
         case Answered(Silence) => Some(NoConnection)
         case Refreshed(false) => Some(SignInRefused)
         case SignInChange => Some(SignInMoved)
         case _ => w.fatal
    ensures e == Answered(Unauthorized) ==> Do(lim, w, e).phase == Refreshing
  {
  }

  /** Over every history the stop that stands is the one decided last, and a refused sign-in is refreshed before it
      is one. */
  lemma {:induction false} StopIsTheLast(lim: Limits, h: seq<Event>)
    requires Valid(lim, h)
    ensures After(lim, h).fatal == LastDecided(h)
    ensures h != [] && h[|h| - 1] == Answered(Unauthorized) ==> After(lim, h).phase == Refreshing
  {
    if h != [] {
      StopIsTheLast(lim, h[..|h| - 1]);
      StopOf(lim, After(lim, h[..|h| - 1]), h[|h| - 1]);
      hide Do, Enabled;
    }
  }

  // ---- what is cancelled

  /** Everything taken to cancel over a history: at each event that takes, the message in flight then. */
  function AllTaken(h: seq<Event>): multiset<Cancel> {
    if h == [] then multiset{}
    else AllTaken(h[..|h| - 1]) + multiset(TakenAt(InFlight(h[..|h| - 1]), h[|h| - 1]))
  }

  /** Taken, and not cancelled yet. */
  function ToCancel(w: State): multiset<Cancel> {
    multiset(w.asked) + (if w.phase.Cancelling? then multiset{w.phase.target} else multiset{})
  }

  /** The loop's answers take what they take, and make nothing yet. */
  lemma AnswerTakes(lim: Limits, w: State, e: Event)
    requires Enabled(w, e) && (e.Answered? || e.Refreshed?)
    ensures var w' := Do(lim, w, e);
      && w'.cancels == w.cancels && w'.asked == w.asked && !w.phase.Cancelling?
      && if TakenAt(w.message, e) == [] then !w'.phase.Cancelling?
         else w'.phase.Cancelling? && TakenAt(w.message, e) == [w'.phase.target]
  {
  }

  /** The other steps take nothing, and but for the two that make a cancellation they make none. */
  lemma OthersTakeNone(lim: Limits, w: State, e: Event)
    requires Enabled(w, e) && !e.Answered? && !e.Refreshed? && !e.SignInChange?
    ensures var w' := Do(lim, w, e);
      && TakenAt(w.message, e) == []
      && (e.AskedCancels? ==>
            w'.asked == w.asked[..e.i] + w.asked[e.i + 1..] && w'.cancels == w.cancels + [w.asked[e.i]] && w'.phase == w.phase)
      && (e.LoopCancels? ==> w'.asked == w.asked && w'.cancels == w.cancels + [w.phase.target] && w'.phase.Waiting?)
      && (!e.AskedCancels? && !e.LoopCancels? ==>
            w'.asked == w.asked && w'.cancels == w.cancels
            && if w.phase.Cancelling? then w'.phase == w.phase else !w'.phase.Cancelling?)
  {
  }

  lemma SignInTakes(lim: Limits, w: State)
    ensures var w' := Do(lim, w, SignInChange);
      w'.cancels == w.cancels && w'.phase == w.phase && w'.asked == w.asked + TakenAt(w.message, SignInChange)
  {
  }

  predicate Moves(w: State, w': State, taken: seq<Cancel>) {
    multiset(w'.cancels) + ToCancel(w') == multiset(w.cancels) + ToCancel(w) + multiset(taken)
  }

  lemma MovesAsked(w: State, w': State, i: nat)
    requires i < |w.asked| && w'.asked == w.asked[..i] + w.asked[i + 1..]
    requires w'.cancels == w.cancels + [w.asked[i]] && w'.phase == w.phase
    ensures Moves(w, w', [])
  {
    assert w.asked == w.asked[..i] + [w.asked[i]] + w.asked[i + 1..];
  }

  lemma MovesTarget(w: State, w': State)
    requires w.phase.Cancelling? && !w'.phase.Cancelling?
    requires w'.asked == w.asked && w'.cancels == w.cancels + [w.phase.target]
    ensures Moves(w, w', [])
  {
  }

  lemma MovesTaken(w: State, w': State, taken: seq<Cancel>)
    requires w'.cancels == w.cancels && w'.phase == w.phase && w'.asked == w.asked + taken
    ensures Moves(w, w', taken)
  {
  }

  lemma MovesTo(w: State, w': State, taken: seq<Cancel>)
    requires w'.cancels == w.cancels && w'.asked == w.asked && !w.phase.Cancelling?
    requires if taken == [] then !w'.phase.Cancelling? else w'.phase.Cancelling? && taken == [w'.phase.target]
    ensures Moves(w, w', taken)
  {
  }

  /** One step, on what is taken and what is made. */
  lemma StepCancels(lim: Limits, w: State, e: Event)
    requires Enabled(w, e)
    ensures Moves(w, Do(lim, w, e), TakenAt(w.message, e))
  {
    var w' := Do(lim, w, e);
    if e.Answered? || e.Refreshed? {
      AnswerTakes(lim, w, e);
      hide *;
      MovesTo(w, w', TakenAt(w.message, e));
    } else if e.SignInChange? {
      SignInTakes(lim, w);
      hide *;
      MovesTaken(w, w', TakenAt(w.message, e));
    } else {
      OthersTakeNone(lim, w, e);
      hide Do, TakenAt, Moves, ToCancel;
      if e.AskedCancels? {
        MovesAsked(w, w', e.i);
      } else if e.LoopCancels? {
        MovesTarget(w, w');
      } else if w.phase.Cancelling? {
        MovesTaken(w, w', []);
      } else {
        MovesTo(w, w', []);
      }
    }
  }

  /** The walk's own context is cancelled exactly when the user cancelled: never by the breaker. */
  lemma {:induction false} WalkIsTheUsers(lim: Limits, h: seq<Event>)
    requires Valid(lim, h)
    ensures After(lim, h).walk <==> UserCancel in h
  {
    if h != [] {
      var front, last := h[..|h| - 1], h[|h| - 1];
      WalkIsTheUsers(lim, front);
      assert h == front + [last];
      assert After(lim, h).walk <==> After(lim, front).walk || last == UserCancel;
      hide *;
    }
  }

  /** Over every history, however late a cancellation is made: what was cancelled and what is still to be is
      exactly what was taken, each time from the message in flight when the stop or the good answer came; so
      no other message's context is cancelled and none twice, and the walk's is cancelled by the user alone. */
  lemma {:induction false} OnlyTheMessage(lim: Limits, h: seq<Event>)
    requires Valid(lim, h)
    ensures multiset(After(lim, h).cancels) + ToCancel(After(lim, h)) == AllTaken(h)
    ensures After(lim, h).walk <==> UserCancel in h
  {
    WalkIsTheUsers(lim, h);
    if h != [] {
      var front, last := h[..|h| - 1], h[|h| - 1];
      OnlyTheMessage(lim, front);
      TimesAreExact(lim, front);
      var w := After(lim, front);
      StepCancels(lim, w, last);
      assert Moves(w, After(lim, h), TakenAt(InFlight(front), last));
      assert AllTaken(h) == AllTaken(front) + multiset(TakenAt(InFlight(front), last));
      hide After, AllTaken, TakenAt, InFlight, ToCancel;
    }
  }
}
