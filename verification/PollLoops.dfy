/**
 Poll loops of the policy manager: each StartWatching chains a new loop behind
 the completion channel of the previous one; StopWatching and Close cancel the
 latest loop and join it. Channels and cancel functions are identified by the
 number of the loop they belong to.
 */
module PollLoops {
  import opened Wrappers

  /** The manager's fields guarded by its mutex, plus the closed flag.
      `started` numbers the next loop. */
  datatype Watch = Watch(watching: bool, stop: Option<nat>, done: Option<nat>, closed: bool, started: nat)

  /** StartWatching's lock section after it read the closed flag as unset. */
  function StartRest(w: Watch): Watch {
    if w.watching then w
    else w.(watching := true, stop := Some(w.started), done := Some(w.started), started := w.started + 1)
  }

  /** The whole section, when Close does not set the flag in the middle of it. */
  function StartSection(w: Watch): Watch {
    if w.closed then w else StartRest(w)
  }

  predicate Starts(w: Watch) {
    !w.closed && !w.watching
  }

  /** StopWatching's lock section. */
  function StopSection(w: Watch): Watch {
    w.(watching := false)
  }

  class Manager {
    var watching: bool
    var watchStop: Option<nat>
    var watchDone: Option<nat>
    var closed: bool
    var started: nat

    function View(): Watch
      reads this
    {
      Watch(watching, watchStop, watchDone, closed, started)
    }

    constructor ()
      ensures View() == Watch(false, None, None, false, 0)
    {
      watching, watchStop, watchDone, closed, started := false, None, None, false, 0;
    }

    /** loop is the started loop, if any, and behind the channel it waits for. */
    method StartWatching() returns (closedErr: bool, loop: Option<nat>, behind: Option<nat>)
      modifies this
      ensures View() == StartSection(old(View()))
      ensures closedErr == old(closed)
      ensures loop == if Starts(old(View())) then Some(old(started)) else None
      ensures behind == if loop.Some? then old(watchDone) else None
    {
      closedErr, loop, behind := false, None, None;
      if closed {
        closedErr := true;
        return;
      }
      if watching {
        return;
      }
      behind := watchDone;
      loop := Some(started);
      watchStop := Some(started);
      watchDone := Some(started);
      watching := true;
      started := started + 1;
    }

    /** cancel is the loop whose context is canceled, done the channel to join. */
    method StopWatching() returns (cancel: Option<nat>, done: Option<nat>)
      modifies this
      ensures View() == StopSection(old(View()))
      ensures cancel == if old(watching) then old(watchStop) else None
      ensures done == old(watchDone)
    {
      cancel := None;
      if watching {
        cancel := watchStop;
        watching := false;
      }
      done := watchDone;
    }

    /** The compare-and-swap at the head of Close. */
    method BeginClose() returns (first: bool)
      modifies this
      ensures View() == old(View()).(closed := true)
      ensures first == !old(closed)
    {
      first := !closed;
      closed := true;
    }
  }

  datatype LoopPhase = Waiting | Running | Exited

  datatype Loop = Loop(behind: Option<nat>, phase: LoopPhase, canceled: bool)

  /** Callers of StopWatching and Close. `before` is the number of loops started
      when the caller's lock section ran. */
  datatype Caller =
    | Joining(done: Option<nat>, before: nat)
    | Stopped(before: nat)
    | Closing
    | CloseJoining(done: Option<nat>, before: nat)
    | CloseWaiting
    | Closed

  /** `starting`: a StartWatching holds the mutex and has read the closed flag as unset.
      Close sets the flag without the mutex, so it may be set before the section goes on. */
  datatype State = State(w: Watch, starting: bool, loops: seq<Loop>, callers: map<nat, Caller>, closeDone: bool)

  datatype Event =
    | ReadFlag
    | Start
    | CancelContext(i: nat) // the caller's own context ends
    | LoopBegins(i: nat)
    | LoopExits(i: nat)
    | Stop(t: nat)
    | StopReturns(t: nat)
    | BeginClose(t: nat)
    | CloseStops(t: nat)
    | CloseFinishes(t: nat)
    | CloseReturns(t: nat)

  function Init(): State {
    State(Watch(false, None, None, false, 0), false, [], map[], false)
  }

  /** A receive on a nil-checked completion channel. */
  predicate IsDone(loops: seq<Loop>, done: Option<nat>) {
    done.Some? ==> done.value < |loops| && loops[done.value].phase.Exited?
  }

  predicate Enabled(s: State, e: Event) {
    match e
    case ReadFlag => !s.starting
    case Start => s.starting
    case CancelContext(i) => i < |s.loops|
    case LoopBegins(i) => i < |s.loops| && s.loops[i].phase.Waiting? && IsDone(s.loops, s.loops[i].behind)
    case LoopExits(i) => i < |s.loops| && s.loops[i].phase.Running? && s.loops[i].canceled
    case Stop(t) => t !in s.callers && !s.starting
    case StopReturns(t) => t in s.callers && s.callers[t].Joining? && IsDone(s.loops, s.callers[t].done)
    case BeginClose(t) => t !in s.callers
    case CloseStops(t) => t in s.callers && s.callers[t].Closing? && !s.starting
    case CloseFinishes(t) => t in s.callers && s.callers[t].CloseJoining? && IsDone(s.loops, s.callers[t].done)
    case CloseReturns(t) => t in s.callers && s.callers[t].CloseWaiting? && s.closeDone
  }

  /** The effect of StopWatching's section on the loops: cancel the latest. */
  function CancelLatest(w: Watch, loops: seq<Loop>): seq<Loop> {
    if w.watching && w.stop.Some? && w.stop.value < |loops|
    then loops[w.stop.value := loops[w.stop.value].(canceled := true)]
    else loops
  }

  function Effect(s: State, e: Event): State
    requires Enabled(s, e)
  {
    match e
    case ReadFlag => s.(starting := !s.w.closed)
    case Start =>
      var loops := if s.w.watching then s.loops else s.loops + [Loop(s.w.done, Waiting, false)];
      s.(w := StartRest(s.w), starting := false, loops := loops)
    case CancelContext(i) => s.(loops := s.loops[i := s.loops[i].(canceled := true)])
    case LoopBegins(i) => s.(loops := s.loops[i := s.loops[i].(phase := Running)])
    case LoopExits(i) => s.(loops := s.loops[i := s.loops[i].(phase := Exited)])
    case Stop(t) =>
      s.(w := StopSection(s.w),
         loops := CancelLatest(s.w, s.loops),
         callers := s.callers[t := Joining(s.w.done, s.w.started)])
    case StopReturns(t) => s.(callers := s.callers[t := Stopped(s.callers[t].before)])
    case BeginClose(t) =>
      s.(w := s.w.(closed := true), callers := s.callers[t := if s.w.closed then CloseWaiting else Closing])
    case CloseStops(t) =>
      s.(w := StopSection(s.w),
         loops := CancelLatest(s.w, s.loops),
         callers := s.callers[t := CloseJoining(s.w.done, s.w.started)])
    case CloseFinishes(t) => s.(callers := s.callers[t := Closed], closeDone := true)
    case CloseReturns(t) => s.(callers := s.callers[t := Closed])
  }

  predicate Next(s: State, e: Event, s': State) {
    Enabled(s, e) && s' == Effect(s, e)
  }

  ghost predicate IsRun(states: seq<State>, events: seq<Event>) {
    && |states| == |events| + 1
    && states[0] == Init()
    && forall i :: 0 <= i < |events| ==> Next(states[i], events[i], states[i + 1])
  }

  function Last(n: nat): Option<nat> {
    if n == 0 then None else Some(n - 1)
  }

  ghost predicate WatchOk(w: Watch, n: nat) {
    w.started == n && w.done == Last(n) && (w.watching ==> n > 0 && w.stop == Last(n))
  }

  /** Each loop waits for the one before it, and left Waiting only after it exited. */
  ghost predicate ChainOk(loops: seq<Loop>) {
    && (forall i :: 0 <= i < |loops| ==> loops[i].behind == Last(i))
    && (forall i :: 0 < i < |loops| && !loops[i].phase.Waiting? ==> loops[i - 1].phase.Exited?)
  }

  /** All loops are canceled, except possibly the latest while watching. */
  ghost predicate CanceledOk(w: Watch, loops: seq<Loop>) {
    forall i :: 0 <= i < |loops| && (i < |loops| - 1 || !w.watching) ==> loops[i].canceled
  }

  ghost predicate ExitedUpTo(loops: seq<Loop>, n: nat) {
    n <= |loops| && forall i :: 0 <= i < n ==> loops[i].phase.Exited?
  }

  ghost predicate CallerOk(s: State, c: Caller) {
    match c
    case Joining(done, before) => before <= |s.loops| && done == Last(before)
    case Stopped(before) => ExitedUpTo(s.loops, before)
    case Closing => s.w.closed
    case CloseJoining(done, before) => s.w.closed && !s.starting && before == |s.loops| && done == Last(before)
      && !s.w.watching
    case CloseWaiting => s.w.closed
    case Closed => s.w.closed && s.closeDone
  }

  ghost predicate Inv(s: State) {
    && WatchOk(s.w, |s.loops|)
    && ChainOk(s.loops)
    && CanceledOk(s.w, s.loops)
    && (s.closeDone ==> s.w.closed && !s.starting && !s.w.watching && ExitedUpTo(s.loops, |s.loops|))
    && (forall t :: t in s.callers ==> CallerOk(s, s.callers[t]))
  }

  /** A loop that exited had every earlier loop exit before it. */
  lemma {:induction false} ChainExits(loops: seq<Loop>, n: nat)
    requires ChainOk(loops) && n <= |loops| && IsDone(loops, Last(n))
    ensures ExitedUpTo(loops, n)
  {
    if n > 1 {
      assert loops[n - 2].phase.Exited?;
      ChainExits(loops, n - 1);
    }
  }

  /** Loops only gain members and only move forward. */
  ghost predicate LoopsAdvance(a: seq<Loop>, b: seq<Loop>) {
    |a| <= |b| && forall i :: 0 <= i < |a| && a[i].phase.Exited? ==> b[i].phase.Exited?
  }

  lemma CallersFrame(s: State, s': State)
    requires Inv(s) && s'.callers == s.callers && LoopsAdvance(s.loops, s'.loops)
    requires s.w.closed ==> s'.w.closed
    requires s.w.closed && !s.starting ==> !s'.starting && |s'.loops| == |s.loops| && (s'.w.watching ==> s.w.watching)
    requires s.closeDone ==> s'.closeDone
    ensures forall t :: t in s'.callers ==> CallerOk(s', s'.callers[t])
  {
    forall t | t in s'.callers
      ensures CallerOk(s', s'.callers[t])
    {
      assert CallerOk(s, s.callers[t]);
    }
  }

  lemma LoopStepKeepsInv(s: State, e: Event, s': State)
    requires Inv(s) && Next(s, e, s')
    requires e.ReadFlag? || e.Start? || e.CancelContext? || e.LoopBegins? || e.LoopExits?
    ensures Inv(s')
  {
    CallersFrame(s, s');
  }

  lemma StopKeepsInv(s: State, t: nat, s': State)
    requires Inv(s) && (Next(s, Stop(t), s') || Next(s, CloseStops(t), s'))
    ensures Inv(s')
  {
    CallersFrame(s, s'.(callers := s.callers));
    assert t in s.callers ==> CallerOk(s, s.callers[t]);
  }

  lemma ReturnKeepsInv(s: State, e: Event, s': State)
    requires Inv(s) && Next(s, e, s')
    requires e.StopReturns? || e.CloseFinishes? || e.CloseReturns? || e.BeginClose?
    ensures Inv(s')
  {
    CallersFrame(s, s'.(callers := s.callers));
    assert e.t in s.callers ==> CallerOk(s, s.callers[e.t]);
    if e.StopReturns? || e.CloseFinishes? {
      ChainExits(s.loops, s.callers[e.t].before);
    }
  }

  lemma NextKeepsInv(s: State, e: Event, s': State)
    requires Inv(s) && Next(s, e, s')
    ensures Inv(s')
  {
    match e {
      case Stop(t) => StopKeepsInv(s, t, s');
      case CloseStops(t) => StopKeepsInv(s, t, s');
      case StopReturns(_) => ReturnKeepsInv(s, e, s');
      case CloseFinishes(_) => ReturnKeepsInv(s, e, s');
      case CloseReturns(_) => ReturnKeepsInv(s, e, s');
      case BeginClose(_) => ReturnKeepsInv(s, e, s');
      case _ => LoopStepKeepsInv(s, e, s');
    }
  }

  lemma {:induction false} RunKeepsInv(states: seq<State>, events: seq<Event>, n: nat)
    requires IsRun(states, events) && n < |states|
    ensures Inv(states[n])
  {
    if n > 0 {
      RunKeepsInv(states, events, n - 1);
      NextKeepsInv(states[n - 1], events[n - 1], states[n]);
    }
  }

  /** In every state of every run at most one loop polls, everything before it
      has exited, everything after it still waits, and every loop but the latest
      is canceled. */
  lemma OneLoopRuns(states: seq<State>, events: seq<Event>, n: nat, i: nat, j: nat)
    requires IsRun(states, events) && n < |states|
    requires i < j < |states[n].loops|
    ensures states[n].loops[i].canceled
    ensures !states[n].loops[i].phase.Exited? ==> states[n].loops[j].phase.Waiting?
    ensures states[n].loops[j].phase.Running? ==> states[n].loops[i].phase.Exited?
  {
    RunKeepsInv(states, events, n);
    if !states[n].loops[j].phase.Waiting? {
      assert IsDone(states[n].loops, Last(j));
      ChainExits(states[n].loops, j);
    }
  }

  /** Caller t is past the lock section that found `before` loops. */
  predicate StoppedAt(s: State, t: nat, before: nat) {
    t in s.callers && (s.callers[t].Joining? || s.callers[t].Stopped?) && s.callers[t].before == before
  }

  lemma {:induction false} StopRemembers(states: seq<State>, events: seq<Event>, k: nat, n: nat)
    requires IsRun(states, events) && k < n < |states| && events[k].Stop?
    ensures StoppedAt(states[n], events[k].t, |states[k].loops|)
    decreases n
  {
    assert Next(states[n - 1], events[n - 1], states[n]);
    if n == k + 1 {
      RunKeepsInv(states, events, k);
    } else {
      StopRemembers(states, events, k, n - 1);
    }
  }

  /** When StopWatching returns, every loop started before its lock section has exited. */
  lemma StopJoinsEarlierLoops(states: seq<State>, events: seq<Event>, k: nat, n: nat)
    requires IsRun(states, events) && k < n < |events|
    requires events[k].Stop? && events[n] == StopReturns(events[k].t)
    ensures ExitedUpTo(states[n].loops, |states[k].loops|)
    ensures events[k].t in states[n + 1].callers && states[n + 1].callers[events[k].t].Stopped?
  {
    var s, t := states[n], events[k].t;
    RunKeepsInv(states, events, n);
    StopRemembers(states, events, k, n);
    assert Next(s, events[n], states[n + 1]);
    assert CallerOk(s, s.callers[t]);
    ChainExits(s.loops, s.callers[t].before);
  }

  /** Step e, in state s, cancels loop i: its own context ends, or it is the latest one and the
      manager is watching when StopWatching's section runs. */
  predicate Cancels(s: State, e: Event, i: nat) {
    e == CancelContext(i) || ((e.Stop? || e.CloseStops?) && s.w.watching && i + 1 == |s.loops|)
  }

  ghost predicate WasCanceled(states: seq<State>, events: seq<Event>, n: nat, i: nat)
    requires n <= |events| < |states|
  {
    exists k :: 0 <= k < n && Cancels(states[k], events[k], i)
  }

  lemma CanceledLater(states: seq<State>, events: seq<Event>, n: nat, i: nat)
    requires n < |events| < |states|
    ensures WasCanceled(states, events, n + 1, i) <==>
      WasCanceled(states, events, n, i) || Cancels(states[n], events[n], i)
  {
    if WasCanceled(states, events, n, i) {
      var k :| 0 <= k < n && Cancels(states[k], events[k], i);
      assert 0 <= k < n + 1;
    }
  }

  lemma LoopStep(s: State, e: Event, s': State, i: nat)
    requires Inv(s) && Next(s, e, s') && i < |s'.loops|
    ensures i >= |s.loops| ==> s'.loops[i].phase.Waiting? && !s'.loops[i].canceled
    ensures i >= |s.loops| ==> e != LoopBegins(i) && e != LoopExits(i) && !Cancels(s, e, i)
    ensures i < |s.loops| ==>
      && (s'.loops[i].phase.Exited? <==> s.loops[i].phase.Exited? || e == LoopExits(i))
      && (s'.loops[i].phase.Waiting? <==> s.loops[i].phase.Waiting? && e != LoopBegins(i))
      && (s'.loops[i].canceled <==> s.loops[i].canceled || Cancels(s, e, i))
  {
  }

  lemma NoLoopNoStep(s: State, e: Event, s': State, i: nat)
    requires Next(s, e, s') && i >= |s.loops|
    ensures e != LoopBegins(i) && e != LoopExits(i) && !Cancels(s, e, i) && |s.loops| <= |s'.loops|
  {
  }

  /** A loop polls from its first step to its exit and at no other time, and is canceled exactly by
      the end of its context or by a StopWatching or Close that finds it current. */
  lemma {:induction false} LoopIsHistory(states: seq<State>, events: seq<Event>, n: nat, i: nat)
    requires IsRun(states, events) && n < |states|
    ensures i < |states[n].loops| ==>
      var loop := states[n].loops[i];
      && (loop.phase.Exited? <==> LoopExits(i) in events[..n])
      && (loop.phase.Waiting? <==> LoopBegins(i) !in events[..n])
      && (loop.canceled <==> WasCanceled(states, events, n, i))
    ensures i >= |states[n].loops| ==>
      LoopBegins(i) !in events[..n] && LoopExits(i) !in events[..n] && !WasCanceled(states, events, n, i)
  {
    if n > 0 {
      var s, e, s' := states[n - 1], events[n - 1], states[n];
      assert Next(s, e, s');
      assert events[..n] == events[..n - 1] + [e];
      RunKeepsInv(states, events, n - 1);
      hide Next, Inv, WasCanceled, Cancels;
      LoopIsHistory(states, events, n - 1, i);
      CanceledLater(states, events, n - 1, i);
      if i >= |s.loops| {
        NoLoopNoStep(s, e, s', i);
      }
      if i < |s'.loops| {
        LoopStep(s, e, s', i);
      } else {
        LoopsGrow(s, e, s');
      }
    }
  }

  lemma LoopsGrow(s: State, e: Event, s': State)
    requires Next(s, e, s')
    ensures |s.loops| <= |s'.loops|
  {
  }

  /** A StartWatching that got past its flag read and is about to start a loop. */
  predicate AboutToStart(s: State) {
    s.starting && !s.w.watching
  }

  ghost predicate Started(events: seq<Event>, i: nat, n: nat)
    requires n <= |events|
  {
    exists k :: i <= k < n && events[k].Start?
  }

  lemma StepAfterClose(s: State, e: Event, s': State)
    requires Next(s, e, s') && s.w.closed
    ensures s'.w.closed && (s.closeDone ==> s'.closeDone)
    ensures e.Start? ==> !s'.starting && |s'.loops| == |s.loops| + (if AboutToStart(s) then 1 else 0)
    ensures !e.Start? ==>
      |s'.loops| == |s.loops| && s'.starting == s.starting && (AboutToStart(s) <==> AboutToStart(s'))
  {
  }

  /** What happens once the closed flag is set, exactly: the one StartWatching that read the
      flag before, if any, still starts its loop when its section goes on, and no other loop
      is ever started. */
  lemma {:induction false} LoopsAfterClose(states: seq<State>, events: seq<Event>, i: nat, n: nat)
    requires IsRun(states, events) && i <= n < |states| && states[i].w.closed
    ensures states[n].w.closed && (states[i].closeDone ==> states[n].closeDone)
    ensures |states[n].loops| == |states[i].loops| + (if AboutToStart(states[i]) && Started(events, i, n) then 1 else 0)
    ensures if Started(events, i, n) then !states[n].starting
            else states[n].starting == states[i].starting && (AboutToStart(states[i]) <==> AboutToStart(states[n]))
    decreases n - i
  {
    if i < n {
      LoopsAfterClose(states, events, i, n - 1);
      StepAfterClose(states[n - 1], events[n - 1], states[n]);
      if Started(events, i, n - 1) {
        var k :| i <= k < n - 1 && events[k].Start?;
        assert Started(events, i, n);
      }
    }
  }

  /** Every loop's section read the flag as unset, and held the mutex from then on. */
  lemma {:induction false} StartReadTheFlag(states: seq<State>, events: seq<Event>, n: nat) returns (k: nat)
    requires IsRun(states, events) && n < |states| && states[n].starting
    ensures k < n && events[k].ReadFlag? && !states[k].w.closed
    ensures forall m :: k < m <= n ==> states[m].starting
  {
    assert Next(states[n - 1], events[n - 1], states[n]);
    if events[n - 1].ReadFlag? {
      k := n - 1;
    } else {
      k := StartReadTheFlag(states, events, n - 1);
    }
  }

  /** No loop starts once Close's own StopWatching section has run. */
  lemma NoStartAfterCloseStops(states: seq<State>, events: seq<Event>, i: nat, n: nat)
    requires IsRun(states, events) && i < n < |states| && events[i].CloseStops?
    ensures |states[n].loops| == |states[i].loops| && !states[n].starting
  {
    RunKeepsInv(states, events, i);
    assert Next(states[i], events[i], states[i + 1]);
    assert CallerOk(states[i], states[i].callers[events[i].t]);
    LoopsAfterClose(states, events, i + 1, n);
  }

  /** The race is real: the flag is set between the read and the start of the loop. */
  lemma LateStart() returns (states: seq<State>, events: seq<Event>)
    ensures IsRun(states, events) && events == [ReadFlag, BeginClose(0), Start]
    ensures states[2].w.closed && |states[2].loops| == 0 && |states[3].loops| == 1
  {
    events := [ReadFlag, BeginClose(0), Start];
    var s1 := Effect(Init(), ReadFlag);
    var s2 := Effect(s1, BeginClose(0));
    states := [Init(), s1, s2, Effect(s2, Start)];
  }

  /** From the moment any Close call, first or concurrent, returns, every
      loop ever started has exited and none is ever started again. */
  lemma CloseJoinsEverything(states: seq<State>, events: seq<Event>, i: nat, n: nat)
    requires IsRun(states, events) && i < n < |states| && (events[i].CloseFinishes? || events[i].CloseReturns?)
    ensures |states[n].loops| == |states[i].loops|
    ensures ExitedUpTo(states[n].loops, |states[n].loops|)
    ensures events[i].t in states[i + 1].callers && states[i + 1].callers[events[i].t].Closed?
  {
    assert Next(states[i], events[i], states[i + 1]);
    RunKeepsInv(states, events, i);
    RunKeepsInv(states, events, i + 1);
    RunKeepsInv(states, events, n);
    assert CallerOk(states[i + 1], states[i + 1].callers[events[i].t]);
    LoopsAfterClose(states, events, i + 1, n);
  }

  ghost predicate Ends(states: seq<State>, events: seq<Event>, s: State) {
    IsRun(states, events) && states[|events|] == s
  }

  lemma Extend(states: seq<State>, events: seq<Event>, s: State, e: Event)
      returns (states': seq<State>, events': seq<Event>, s': State)
    requires Ends(states, events, s) && Enabled(s, e)
    ensures s' == Effect(s, e) && Ends(states', events', s')
  {
    s' := Effect(s, e);
    states', events' := states + [s'], events + [e];
  }

  /** A loop is started, polls, is stopped and joined. */
  lemma StartedAndStopped() returns (states: seq<State>, events: seq<Event>, s: State)
    ensures Ends(states, events, s) && s.loops == [Loop(None, Exited, true)]
    ensures s.callers == map[0 := Stopped(1)] && !s.w.watching && !s.w.closed && !s.starting && !s.closeDone
    ensures s.w.done == Some(0)
  {
    states, events, s := [Init()], [], Init();
    hide Ends;
    states, events, s := Extend(states, events, s, ReadFlag);
    states, events, s := Extend(states, events, s, Start);
    states, events, s := Extend(states, events, s, LoopBegins(0));
    states, events, s := Extend(states, events, s, Stop(0));
    states, events, s := Extend(states, events, s, LoopExits(0));
    states, events, s := Extend(states, events, s, StopReturns(0));
  }

  /** Then two Close calls come; both return. */
  lemma BothClosesReturn() returns (states: seq<State>, events: seq<Event>, s: State)
    ensures Ends(states, events, s) && s.w.closed && {1, 2} <= s.callers.Keys
    ensures s.callers[1].Closed? && s.callers[2].Closed?
  {
    states, events, s := StartedAndStopped();
    hide Ends;
    states, events, s := Extend(states, events, s, BeginClose(1));
    states, events, s := Extend(states, events, s, BeginClose(2));
    states, events, s := Extend(states, events, s, CloseStops(1));
    states, events, s := Extend(states, events, s, CloseFinishes(1));
    states, events, s := Extend(states, events, s, CloseReturns(2));
  }

  /** A loop also ends with the context it was started with. */
  lemma ContextEndsLoop() returns (states: seq<State>, events: seq<Event>, s: State)
    ensures Ends(states, events, s) && s.loops == [Loop(None, Exited, true)] && s.w.watching && s.callers == map[]
  {
    states, events, s := [Init()], [], Init();
    hide Ends;
    states, events, s := Extend(states, events, s, ReadFlag);
    states, events, s := Extend(states, events, s, Start);
    states, events, s := Extend(states, events, s, LoopBegins(0));
    states, events, s := Extend(states, events, s, CancelContext(0));
    states, events, s := Extend(states, events, s, LoopExits(0));
  }

  /** A loop that can take a step now. */
  predicate LoopCanMove(s: State, i: nat) {
    i < |s.loops| && (Enabled(s, LoopBegins(i)) || Enabled(s, LoopExits(i)))
  }

  lemma StaysCanceled(s: State, e: Event, s': State, i: nat)
    requires Next(s, e, s') && i < |s.loops| && s.loops[i].canceled
    ensures i < |s'.loops| && s'.loops[i].canceled
  {
  }

  /** Every loop a StopWatching or Close found is canceled from its section on. */
  lemma {:induction false} FoundAreCanceled(states: seq<State>, events: seq<Event>, k: nat, n: nat, i: nat)
    requires IsRun(states, events) && k < n < |states| && (events[k].Stop? || events[k].CloseStops?)
    requires i < |states[k].loops|
    ensures i < |states[n].loops| && states[n].loops[i].canceled
    decreases n
  {
    assert Next(states[n - 1], events[n - 1], states[n]);
    if k + 1 < n {
      FoundAreCanceled(states, events, k, n - 1, i);
      StaysCanceled(states[n - 1], events[n - 1], states[n], i);
    } else {
      RunKeepsInv(states, events, k);
    }
  }

  /** Of canceled loops that have not all exited, the first can go on. */
  lemma {:induction false} FirstCanMove(s: State, m: nat, before: nat) returns (i: nat)
    requires ChainOk(s.loops) && m < before <= |s.loops| && ExitedUpTo(s.loops, m) && !ExitedUpTo(s.loops, before)
    requires forall j :: 0 <= j < before ==> s.loops[j].canceled
    ensures i < before && LoopCanMove(s, i)
    decreases before - m
  {
    if s.loops[m].phase.Exited? {
      i := FirstCanMove(s, m + 1, before);
    } else {
      i := m;
    }
  }

  /** StopWatching does not deadlock: between its section and its return it can return, or one of the
      loops it waits for can go on, to polling if it has not begun and to its exit otherwise. */
  lemma StopNeverStuck(states: seq<State>, events: seq<Event>, k: nat, n: nat)
    requires IsRun(states, events) && k < n < |states| && events[k].Stop?
    requires events[k].t in states[n].callers && states[n].callers[events[k].t].Joining?
    ensures
      || Enabled(states[n], StopReturns(events[k].t))
      || exists i :: 0 <= i < |states[k].loops| && LoopCanMove(states[n], i)
  {
    var s, before := states[n], |states[k].loops|;
    RunKeepsInv(states, events, n);
    StopRemembers(states, events, k, n);
    assert CallerOk(s, s.callers[events[k].t]);
    if !Enabled(s, StopReturns(events[k].t)) {
      forall j | 0 <= j < before
        ensures s.loops[j].canceled
      {
        FoundAreCanceled(states, events, k, n, j);
      }
      var i := FirstCanMove(s, 0, before);
    }
  }
}
