/** The router's hot reload: watch goroutines signal changes through a channel of capacity
one, and one loop coalesces signals and refreshes. Steps of all goroutines interleave
freely. */
module Refresh {

  /** Where the refresh loop is: waiting in its select, absorbing signals until the debounce
      timer fires or the context is cancelled, committed to a refresh, reading, or ended. */
  datatype Loop = Waiting | Absorbing | Committed | Reading | Ended

  /** `holding` are the watch goroutines that have received a change and not yet signalled
      it. `delivered` counts the changes signalled, or dropped because the channel was full;
      `covered` counts those that a refresh has started after. */
  datatype State = State(
    token: bool, loop: Loop, debounce: bool, holding: set<nat>, delivered: nat, covered: nat)

  datatype Step =
    | Receive(watcher: nat)
    | Signal(watcher: nat)
    | TakeSignal
    | AbsorbSignal
    | TimerFires
    | TickerFires
    | StartRefresh
    | EndRefresh
    | Cancel

  function Next(s: State, step: Step): State {
    match step
    case Receive(g) => s.(holding := s.holding + {g})
    case Signal(g) =>
      if g !in s.holding then s
      else s.(holding := s.holding - {g}, token := true, delivered := s.delivered + 1)
    case TakeSignal =>
      if s.loop.Waiting? && s.token then s.(token := false, loop := if s.debounce then Absorbing else Committed) else s
    case AbsorbSignal => if s.loop.Absorbing? && s.token then s.(token := false) else s
    case TimerFires => if s.loop.Absorbing? then s.(loop := Committed) else s
    case TickerFires => if s.loop.Waiting? then s.(loop := Committed) else s
    case StartRefresh => if s.loop.Committed? then s.(loop := Reading, covered := s.delivered) else s
    case EndRefresh => if s.loop.Reading? then s.(loop := Waiting) else s
    case Cancel => if s.loop.Waiting? then s.(loop := Ended) else if s.loop.Absorbing? then s.(loop := Committed) else s
  }

  function Run(s: State, steps: seq<Step>): State {
    if steps == [] then s else Next(Run(s, steps[..|steps| - 1]), steps[|steps| - 1])
  }

  predicate Fresh(s: State) {
    !s.token && s.loop.Waiting? && s.holding == {} && s.delivered == 0 && s.covered == 0
  }

  /** A delivered change that no refresh has started after leaves a signal in the channel or
      the loop on its way to a refresh. */
  predicate Awake(s: State) {
    && s.covered <= s.delivered
    && (s.covered < s.delivered && !s.loop.Ended? ==> s.token || s.loop.Absorbing? || s.loop.Committed?)
  }

  /** No wake-up is lost, under any interleaving. */
  lemma {:induction false} NoLostWakeUp(s: State, steps: seq<Step>)
    requires Fresh(s)
    ensures Awake(Run(s, steps))
  {
    if steps != [] {
      NoLostWakeUp(s, steps[..|steps| - 1]);
    }
  }

  /** When everything is at rest, every change delivered was followed by a refresh. */
  lemma QuiescentIsCurrent(s: State, steps: seq<Step>)
    requires Fresh(s)
    requires var t := Run(s, steps); t.loop.Waiting? && !t.token && t.holding == {}
    ensures Run(s, steps).covered == Run(s, steps).delivered
  {
    NoLostWakeUp(s, steps);
  }

  /** A change that a watcher has received is delivered by its next signal: it then waits in the
      channel, which is enough for any number of them. */
  lemma {:induction false} ReceivedIsDelivered(s: State, steps: seq<Step>, i: nat, g: nat)
    requires i < |steps| && steps[i] == Receive(g) && forall j :: i < j < |steps| ==> steps[j] != Signal(g)
    ensures var t := Run(s, steps);
      && g in t.holding
      && Next(t, Signal(g)) == t.(holding := t.holding - {g}, token := true, delivered := t.delivered + 1)
  {
    var n := |steps| - 1;
    if i < n { ReceivedIsDelivered(s, steps[..n], i, g); }
  }

  function Count(steps: seq<Step>, step: Step): nat {
    if steps == [] then 0
    else Count(steps[..|steps| - 1], step) + if steps[|steps| - 1] == step then 1 else 0
  }

  /** How many refreshes have started. */
  function Refreshes(s: State, steps: seq<Step>): nat {
    if steps == [] then 0
    else
      var n := |steps| - 1;
      Refreshes(s, steps[..n])
        + if Run(s, steps[..n]) != Run(s, steps) && Run(s, steps).loop.Reading? && steps[n].StartRefresh? then 1 else 0
  }

  /** Bursts are coalesced: no refresh starts but for a change delivered or a tick of its own, and
      one that the loop is on its way to, or that waits in the channel, is paid for too. */
  lemma {:induction false} RefreshesAreCaused(s: State, steps: seq<Step>)
    requires Fresh(s)
    ensures var t := Run(s, steps);
      Refreshes(s, steps) + (if t.token then 1 else 0) + (if t.loop.Absorbing? || t.loop.Committed? then 1 else 0)
        <= t.delivered + Count(steps, TickerFires)
  {
    if steps != [] { RefreshesAreCaused(s, steps[..|steps| - 1]); }
  }

  function Received(steps: seq<Step>): nat {
    if steps == [] then 0
    else Received(steps[..|steps| - 1]) + if steps[|steps| - 1].Receive? then 1 else 0
  }

  /** Nothing is delivered that was not received. */
  lemma {:induction false} DeliveredWasReceived(s: State, steps: seq<Step>)
    requires Fresh(s)
    ensures Run(s, steps).delivered + |Run(s, steps).holding| <= Received(steps)
  {
    if steps != [] {
      var n := |steps| - 1;
      DeliveredWasReceived(s, steps[..n]);
      var t := Run(s, steps[..n]);
      if steps[n].Signal? && steps[n].watcher in t.holding {
        assert |t.holding - {steps[n].watcher}| == |t.holding| - 1;
      }
    }
  }

  /** What the debounce window is for: whatever is signalled in it is covered by the one refresh that
      follows, and leaves no signal if it was absorbed. */
  lemma {:induction false} BurstIsOneRefresh(s: State, burst: seq<Step>)
    requires s.loop.Waiting? && s.token && s.debounce
    requires forall i :: 0 <= i < |burst| ==> burst[i].Receive? || burst[i].Signal? || burst[i].AbsorbSignal?
    ensures var t := Run(Next(s, TakeSignal), burst);
      var u := Next(Next(Next(t, AbsorbSignal), TimerFires), StartRefresh);
      t.loop.Absorbing? && u.loop.Reading? && !u.token && u.covered == t.delivered == u.delivered
  {
    if burst != [] { BurstIsOneRefresh(s, burst[..|burst| - 1]); }
  }

  /** The ticker alone brings a refresh, in any state in which the loop waits. */
  lemma TickerRefreshes(s: State, between: seq<Step>)
    requires s.loop.Waiting? && Awake(s) && Others(between)
    ensures var t := Run(Next(s, TickerFires), between);
      Next(t, StartRefresh).covered == t.delivered >= s.delivered && Next(t, StartRefresh).loop.Reading?
  {
    OthersKeep(Next(s, TickerFires), between);
  }

  /** A loop that is cancelled in the debounce window still refreshes once. */
  lemma CancelledWhileAbsorbing(s: State)
    requires s.loop.Absorbing?
    ensures Next(Next(s, Cancel), StartRefresh) == s.(loop := Reading, covered := s.delivered)
  {
  }

  /** A cancelled loop that waits ends, and then nothing is refreshed any more. */
  lemma {:induction false} EndedStays(s: State, steps: seq<Step>)
    requires s.loop.Waiting?
    ensures var t := Run(Next(s, Cancel), steps); t.loop.Ended? && t.covered == s.covered
  {
    if steps != [] { EndedStays(s, steps[..|steps| - 1]); }
  }

  // ---------------------------------------------------------------------------
  // Progress.

  /** The loop's own next step when its timer and reads go on. */
  function LoopStep(s: State): Step {
    match s.loop
    case Waiting => TakeSignal
    case Absorbing => TimerFires
    case Committed => StartRefresh
    case Reading => EndRefresh
    case Ended => EndRefresh
  }

  /** Steps that are not the loop's: any watcher may act between the loop's steps. */
  predicate Others(steps: seq<Step>) {
    forall i :: 0 <= i < |steps| ==> steps[i].Receive? || steps[i].Signal?
  }

  /** The loop's steps with anything the watchers do in between. */
  function Drive(s: State, between: seq<seq<Step>>): State {
    if between == [] then s
    else
      var t := Drive(s, between[..|between| - 1]);
      var u := Run(t, between[|between| - 1]);
      Next(u, LoopStep(u))
  }

  lemma {:induction false} OthersKeep(s: State, steps: seq<Step>)
    requires Others(steps) && Awake(s)
    ensures var t := Run(s, steps);
      Awake(t) && t.loop == s.loop && t.covered == s.covered && t.delivered >= s.delivered && (s.token ==> t.token)
      && t.debounce == s.debounce
  {
    if steps != [] {
      assert Others(steps[..|steps| - 1]);
      OthersKeep(s, steps[..|steps| - 1]);
    }
  }

  /** How many of its own steps the loop is away from covering `target` changes. */
  function Distance(s: State, target: nat): nat {
    if s.covered >= target then 0
    else match s.loop
      case Committed => 1
      case Absorbing => 2
      case Waiting => if s.debounce then 3 else 2
      case Reading => if s.debounce then 4 else 3
      case Ended => 5
  }

  lemma {:induction false} DriveAdvances(s: State, between: seq<seq<Step>>, target: nat)
    requires Awake(s) && !s.loop.Ended? && target <= s.delivered
    requires forall i :: 0 <= i < |between| ==> Others(between[i])
    ensures var t := Drive(s, between);
      Awake(t) && !t.loop.Ended? && t.delivered >= s.delivered
      && (Distance(t, target) == 0 || Distance(t, target) + |between| <= Distance(s, target))
  {
    if between != [] {
      var n := |between| - 1;
      DriveAdvances(s, between[..n], target);
      var t := Drive(s, between[..n]);
      OthersKeep(t, between[n]);
    }
  }

  /** Every change delivered is followed by a refresh within four of the loop's own steps,
      whatever the watchers do meanwhile. */
  lemma ChangesAreCovered(s: State, steps: seq<Step>, between: seq<seq<Step>>)
    requires Fresh(s) && !Run(s, steps).loop.Ended?
    requires |between| == 4 && forall i :: 0 <= i < |between| ==> Others(between[i])
    ensures Drive(Run(s, steps), between).covered >= Run(s, steps).delivered
  {
    NoLostWakeUp(s, steps);
    DriveAdvances(Run(s, steps), between, Run(s, steps).delivered);
  }
}
