/**
 Ownership of the plugin directory watcher. A watch loop owns the manager's
 watcher fields as long as they hold its own completion channel; StopWatching
 takes ownership over, and a loop that ends by itself gives it up only if it is
 still the owner. Channels and cancel functions carry their loop's number.
 */
module PluginWatcher {
  import opened Wrappers

  /** The fields under watchMu, plus the closed flag; `started` numbers loops. */
  datatype Watch = Watch(watching: bool, stop: Option<nat>, done: Option<nat>, closed: bool, started: nat)

  const Idle := Watch(false, None, None, false, 0)

  /** watcherOk tells whether the fsnotify watcher could be created. */
  function StartRest(w: Watch, watcherOk: bool): Watch {
    if w.watching || !watcherOk then w
    else Watch(true, Some(w.started), Some(w.started), w.closed, w.started + 1)
  }

  /** The whole section of StartWatching, when Close does not set the flag in the middle of it. */
  function StartSection(w: Watch, watcherOk: bool): Watch {
    if w.closed then w else StartRest(w, watcherOk)
  }

  function Release(w: Watch): Watch {
    w.(watching := false, stop := None, done := None)
  }

  /** resetWatchStateIfCurrent for loop i. */
  function ResetIfCurrent(w: Watch, i: nat): Watch {
    if w.done != Some(i) then w else Release(w)
  }

  class Manager {
    var watching: bool
    var watchStop: Option<nat>
    var watchDone: Option<nat>
    var closed: bool
    var started: nat

    function View(): Watch
      reads this
    {
      Watch(watching, watchStop, watchDone, closed, started)
    }

    constructor ()
      ensures View() == Idle
    {
      watching, watchStop, watchDone, closed, started := false, None, None, false, 0;
    }

    method StartWatching(watcherOk: bool) returns (loop: Option<nat>)
      modifies this
      ensures View() == StartSection(old(View()), watcherOk)
      ensures loop == if started == old(started) then None else Some(old(started))
    {
      loop := None;
      if closed {
        return;
      }
      if watching {
        return;
      }
      if !watcherOk {
        return;
      }
      watchStop := Some(started);
      watchDone := Some(started);
      watching := true;
      loop := Some(started);
      started := started + 1;
    }

    /** The section of StopWatching; None when there is nothing to stop. */
    method TakeOver() returns (stop: Option<nat>, done: Option<nat>)
      modifies this
      ensures View() == if old(watching) then Release(old(View())) else old(View())
      ensures old(watching) ==> stop == old(watchStop) && done == old(watchDone)
      ensures !old(watching) ==> stop == None && done == None
    {
      stop, done := None, None;
      if !watching {
        return;
      }
      stop := watchStop;
      done := watchDone;
      watching := false;
      watchStop := None;
      watchDone := None;
    }

    method ResetWatchStateIfCurrent(i: nat)
      modifies this
      ensures View() == ResetIfCurrent(old(View()), i)
    {
      if watchDone != Some(i) {
        return;
      }
      watching := false;
      watchStop := None;
      watchDone := None;
    }
  }

  /** watchLoop: select loop, then the deferred reset, then close(done). */
  datatype LoopPhase = Running | Leaving | GaveUp | Exited

  /** `canceled` by a StopWatching, `contextEnded` by the context given to StartWatching. */
  datatype Loop = Loop(phase: LoopPhase, canceled: bool, contextEnded: bool)

  /** Callers of StopWatching; closing marks the first Close. */
  datatype Caller =
    | Closing                            // set the flag, StopWatching not yet entered
    | Holding(i: nat, closing: bool)     // took over loop i, has not called stop()
    | Joining(i: nat, closing: bool)
    | Returned(joined: Option<nat>, closing: bool)
    | Repeated                           // a Close that found the flag set: it does not stop or join anything

  /** `starting`: a StartWatching holds watchMu and has read the closed flag as unset. */
  datatype State = State(w: Watch, starting: bool, loops: seq<Loop>, callers: map<nat, Caller>)

  datatype Event =
    | ReadFlag
    | Start(watcherOk: bool)
    | CancelContext(i: nat)
    | Leave(i: nat) // canceled, or fsnotify closed its channels
    | Reset(i: nat)
    | Exit(i: nat)
    | BeginClose(t: nat)
    | RepeatClose(t: nat)
    | Take(t: nat)
    | CallStop(t: nat)
    | Join(t: nat)

  function Init(): State {
    State(Idle, false, [], map[])
  }

  predicate Enabled(s: State, e: Event) {
    match e
    case ReadFlag => !s.starting
    case Start(_) => s.starting
    case CancelContext(i) => i < |s.loops|
    case Leave(i) => i < |s.loops| && s.loops[i].phase.Running?
    case Reset(i) => i < |s.loops| && s.loops[i].phase.Leaving? && !s.starting
    case Exit(i) => i < |s.loops| && s.loops[i].phase.GaveUp?
    case BeginClose(t) => t !in s.callers && !s.w.closed
    case RepeatClose(t) => t !in s.callers && s.w.closed
    case Take(t) => (t !in s.callers || s.callers[t].Closing?) && !s.starting
    case CallStop(t) => t in s.callers && s.callers[t].Holding? && s.callers[t].i < |s.loops|
    case Join(t) =>
      && t in s.callers && s.callers[t].Joining? && s.callers[t].i < |s.loops|
      && s.loops[s.callers[t].i].phase.Exited?
  }

  function Move(loops: seq<Loop>, i: nat, p: LoopPhase): seq<Loop>
    requires i < |loops|
  {
    loops[i := loops[i].(phase := p)]
  }

  function Effect(s: State, e: Event): State
    requires Enabled(s, e)
  {
    match e
    case ReadFlag => s.(starting := !s.w.closed)
    case Start(ok) =>
      var w' := StartRest(s.w, ok);
      var loops := if w'.started == s.w.started then s.loops else s.loops + [Loop(Running, false, false)];
      s.(w := w', starting := false, loops := loops)
    case CancelContext(i) => s.(loops := s.loops[i := s.loops[i].(contextEnded := true)])
    case Leave(i) => s.(loops := Move(s.loops, i, Leaving))
    case Reset(i) => s.(w := ResetIfCurrent(s.w, i), loops := Move(s.loops, i, GaveUp))
    case Exit(i) => s.(loops := Move(s.loops, i, Exited))
    case BeginClose(t) => s.(w := s.w.(closed := true), callers := s.callers[t := Closing])
    case RepeatClose(t) => s.(callers := s.callers[t := Repeated])
    case Take(t) =>
      var closing := t in s.callers;
      if s.w.watching && s.w.done.Some? then
        s.(w := Release(s.w), callers := s.callers[t := Holding(s.w.done.value, closing)])
      else
        s.(callers := s.callers[t := Returned(None, closing)])
    case CallStop(t) =>
      var c := s.callers[t];
      s.(loops := s.loops[c.i := s.loops[c.i].(canceled := true)], callers := s.callers[t := Joining(c.i, c.closing)])
    case Join(t) => s.(callers := s.callers[t := Returned(Some(s.callers[t].i), s.callers[t].closing)])
  }

  predicate Next(s: State, e: Event, s': State) {
    Enabled(s, e) && s' == Effect(s, e)
  }

  ghost predicate IsRun(states: seq<State>, events: seq<Event>) {
    && |states| == |events| + 1
    && states[0] == Init()
    && forall i :: 0 <= i < |events| ==> Next(states[i], events[i], states[i + 1])
  }

  predicate Current(s: State, i: nat) {
    s.w.watching && s.w.done == Some(i) && s.w.stop == Some(i)
  }

  ghost predicate Held(s: State, i: nat) {
    exists t :: t in s.callers && s.callers[t].Holding? && s.callers[t].i == i
  }

  ghost predicate Joined(s: State, i: nat) {
    exists t :: t in s.callers && s.callers[t].Joining? && s.callers[t].i == i
  }

  /** The loop ends, or has ended, of its own accord. */
  predicate LeavesItself(loop: Loop) {
    loop.contextEnded || !loop.phase.Running?
  }

  /** Who answers for loop i: itself, its owner, or a StopWatching that took it over and
      is about to cancel it or waits for it to exit. */
  ghost predicate Owned(s: State, i: nat)
    requires i < |s.loops|
  {
    LeavesItself(s.loops[i]) || Current(s, i) || Held(s, i) || Joined(s, i)
  }

  ghost predicate WatchOk(s: State) {
    && s.w.started == |s.loops|
    && (s.w.watching <==> s.w.done.Some?) && s.w.stop == s.w.done
    && (s.w.done.Some? ==>
      s.w.done.value < |s.loops| && (s.loops[s.w.done.value].phase.Running? || s.loops[s.w.done.value].phase.Leaving?))
  }

  /** The first Close is past its StopWatching section. */
  ghost predicate ClosePassed(s: State) {
    s.w.closed && forall t :: t in s.callers ==> !s.callers[t].Closing?
  }

  ghost predicate CallerOk(s: State, c: Caller) {
    match c
    case Closing => s.w.closed
    case Repeated => s.w.closed
    case Holding(i, closing) => i < |s.loops| && (closing ==> s.w.closed)
    case Joining(i, closing) => i < |s.loops| && s.loops[i].canceled && (closing ==> s.w.closed)
    case Returned(joined, closing) =>
      (joined.Some? ==> joined.value < |s.loops| && s.loops[joined.value].phase.Exited?) && (closing ==> s.w.closed)
  }

  ghost predicate Inv(s: State) {
    && WatchOk(s)
    && (ClosePassed(s) ==> !s.w.watching && !s.starting)
    && (forall i :: 0 <= i < |s.loops| ==> Owned(s, i))
    && (forall t :: t in s.callers ==> CallerOk(s, s.callers[t]))
  }

  lemma OwnedFrame(s: State, s': State, i: nat)
    requires i < |s.loops| && Owned(s, i) && s'.callers == s.callers && i < |s'.loops|
    requires LeavesItself(s.loops[i]) ==> LeavesItself(s'.loops[i])
    requires Current(s, i) ==> Current(s', i) || LeavesItself(s'.loops[i])
    ensures Owned(s', i)
  {
    if Held(s, i) {
      var t :| t in s.callers && s.callers[t].Holding? && s.callers[t].i == i;
      assert t in s'.callers;
    } else if Joined(s, i) {
      var t :| t in s.callers && s.callers[t].Joining? && s.callers[t].i == i;
      assert t in s'.callers;
    }
  }

  lemma LoopStepKeepsInv(s: State, e: Event, s': State)
    requires Inv(s) && Next(s, e, s')
    requires e.ReadFlag? || e.Start? || e.CancelContext? || e.Leave? || e.Reset? || e.Exit?
    ensures Inv(s')
  {
    forall i | 0 <= i < |s'.loops|
      ensures Owned(s', i)
    {
      if i < |s.loops| {
        OwnedFrame(s, s', i);
      }
    }
    forall t | t in s'.callers
      ensures CallerOk(s', s'.callers[t])
    {
      assert CallerOk(s, s.callers[t]);
    }
  }

  lemma CallerStepOwned(s: State, e: Event, s': State, i: nat)
    requires Inv(s) && Next(s, e, s') && i < |s.loops|
    requires e.BeginClose? || e.RepeatClose? || e.Take? || e.CallStop? || e.Join?
    ensures Owned(s', i)
  {
    assert Owned(s, i);
    if Current(s, i) && !Current(s', i) {
      assert s'.callers[e.t] == Holding(i, e.t in s.callers);
    } else if Held(s, i) {
      var u :| u in s.callers && s.callers[u].Holding? && s.callers[u].i == i;
      assert u in s'.callers && (s'.callers[u] == s.callers[u] || s'.callers[u] == Joining(i, s.callers[u].closing));
    } else if Joined(s, i) {
      var u :| u in s.callers && s.callers[u].Joining? && s.callers[u].i == i;
      assert u in s'.callers && (s'.callers[u] == s.callers[u] || s'.loops[i].phase.Exited?);
    }
  }

  lemma CallerStepKeepsInv(s: State, e: Event, s': State)
    requires Inv(s) && Next(s, e, s')
    requires e.BeginClose? || e.RepeatClose? || e.Take? || e.CallStop? || e.Join?
    ensures Inv(s')
  {
    hide Owned;
    forall i | 0 <= i < |s'.loops|
      ensures Owned(s', i)
    {
      CallerStepOwned(s, e, s', i);
    }
    assert e.t in s.callers ==> CallerOk(s, s.callers[e.t]);
    forall u | u in s'.callers
      ensures CallerOk(s', s'.callers[u])
    {
      assert u in s.callers ==> CallerOk(s, s.callers[u]);
    }
    assert s'.callers[e.t].Closing? <==> e.BeginClose?;
    assert forall u :: u in s.callers && u != e.t ==> s'.callers[u] == s.callers[u];
  }

  lemma NextKeepsInv(s: State, e: Event, s': State)
    requires Inv(s) && Next(s, e, s')
    ensures Inv(s')
  {
    if e.BeginClose? || e.RepeatClose? || e.Take? || e.CallStop? || e.Join? {
      CallerStepKeepsInv(s, e, s');
    } else {
      LoopStepKeepsInv(s, e, s');
    }
  }

  lemma {:induction false} RunKeepsInv(states: seq<State>, events: seq<Event>, n: nat)
    requires IsRun(states, events) && n < |states|
    ensures Inv(states[n])
  {
    if n > 0 {
      RunKeepsInv(states, events, n - 1);
      NextKeepsInv(states[n - 1], events[n - 1], states[n]);
    }
  }

  /** In every state of every run, a watch loop that still runs has its context ended, is the
      current owner, or was taken over by a StopWatching that is about to cancel it or has
      canceled it and waits for its exit. */
  lemma NoOrphanLoop(states: seq<State>, events: seq<Event>, n: nat, i: nat)
    requires IsRun(states, events) && n < |states| && i < |states[n].loops|
    requires states[n].loops[i].phase.Running?
    ensures states[n].loops[i].contextEnded || Current(states[n], i) || Held(states[n], i) || Joined(states[n], i)
    ensures Joined(states[n], i) ==> states[n].loops[i].canceled
  {
    RunKeepsInv(states, events, n);
    assert Owned(states[n], i);
    if Joined(states[n], i) {
      var t :| t in states[n].callers && states[n].callers[t].Joining? && states[n].callers[t].i == i;
      assert CallerOk(states[n], states[n].callers[t]);
    }
  }

  /** A loop's exit leaves another loop's ownership alone, and frees its own. */
  lemma ExitRespectsOwner(states: seq<State>, events: seq<Event>, n: nat, i: nat, j: nat)
    requires IsRun(states, events) && n < |events| && events[n] == Reset(i)
    ensures j != i ==> (Current(states[n], j) <==> Current(states[n + 1], j))
    ensures !Current(states[n + 1], i)
    ensures Current(states[n], i) ==> !states[n + 1].w.watching
  {
    RunKeepsInv(states, events, n);
  }

  /** StopWatching returns only after the loop it took over closed its channel. */
  lemma StopJoins(states: seq<State>, events: seq<Event>, k: nat, n: nat, i: nat)
    requires IsRun(states, events) && k < n < |states| && events[k].Take? && Current(states[k], i)
    ensures events[k].t in states[n].callers && TookOver(states[n].callers[events[k].t], i)
    ensures states[n].callers[events[k].t].Returned? ==> i < |states[n].loops| && states[n].loops[i].phase.Exited?
  {
    TakerKeepsLoop(states, events, k, n, i);
    RunKeepsInv(states, events, n);
    assert CallerOk(states[n], states[n].callers[events[k].t]);
  }

  predicate TookOver(c: Caller, i: nat) {
    ((c.Holding? || c.Joining?) && c.i == i) || (c.Returned? && c.joined == Some(i))
  }

  lemma {:induction false} TakerKeepsLoop(states: seq<State>, events: seq<Event>, k: nat, n: nat, i: nat)
    requires IsRun(states, events) && k < n < |states| && events[k].Take? && Current(states[k], i)
    ensures events[k].t in states[n].callers && TookOver(states[n].callers[events[k].t], i)
    decreases n
  {
    assert Next(states[n - 1], events[n - 1], states[n]);
    if k + 1 < n {
      TakerKeepsLoop(states, events, k, n - 1, i);
    }
  }

  /** Step e, in state s, calls stop for loop i: by the StopWatching that took it over. */
  predicate Cancels(s: State, e: Event, i: nat) {
    e.CallStop? && e.t in s.callers && s.callers[e.t].Holding? && s.callers[e.t].i == i
  }

  ghost predicate WasCanceled(states: seq<State>, events: seq<Event>, n: nat, i: nat)
    requires n <= |events| < |states|
  {
    exists k :: 0 <= k < n && Cancels(states[k], events[k], i)
  }

  lemma CanceledLater(states: seq<State>, events: seq<Event>, n: nat, i: nat)
    requires n < |events| < |states|
    ensures WasCanceled(states, events, n + 1, i) <==>
      WasCanceled(states, events, n, i) || Cancels(states[n], events[n], i)
  {
    if WasCanceled(states, events, n, i) {
      var k :| 0 <= k < n && Cancels(states[k], events[k], i);
      assert 0 <= k < n + 1;
    }
  }

  lemma LoopStep(s: State, e: Event, s': State, i: nat)
    requires Next(s, e, s')
    ensures |s.loops| <= |s'.loops|
    ensures i >= |s.loops| ==>
      e != Leave(i) && e != Reset(i) && e != Exit(i) && e != CancelContext(i) && !Cancels(s, e, i)
    ensures |s.loops| <= i < |s'.loops| ==> s'.loops[i] == Loop(Running, false, false)
    ensures i < |s.loops| ==>
      && (s'.loops[i].phase.Running? <==> s.loops[i].phase.Running? && e != Leave(i))
      && (s'.loops[i].phase.Exited? <==> s.loops[i].phase.Exited? || e == Exit(i))
      && (s'.loops[i].phase.Leaving? <==> (s.loops[i].phase.Leaving? && e != Reset(i)) || e == Leave(i))
      && (s'.loops[i].contextEnded <==> s.loops[i].contextEnded || e == CancelContext(i))
      && (s'.loops[i].canceled <==> s.loops[i].canceled || Cancels(s, e, i))
    ensures i < |s.loops| && e == Leave(i) ==> s.loops[i].phase.Running?
    ensures i < |s.loops| && e == Reset(i) ==> s.loops[i].phase.Leaving?
  {
  }

  /** A loop runs until it leaves, then gives up the watch state, then exits; its context has ended
      exactly when the caller's did, and it is canceled exactly by the StopWatching that holds it. */
  lemma {:induction false} LoopIsHistory(states: seq<State>, events: seq<Event>, n: nat, i: nat)
    requires IsRun(states, events) && n < |states|
    ensures i < |states[n].loops| ==>
      var loop := states[n].loops[i];
      && (loop.phase.Running? <==> Leave(i) !in events[..n])
      && (loop.phase.Leaving? <==> Leave(i) in events[..n] && Reset(i) !in events[..n])
      && (loop.phase.Exited? <==> Exit(i) in events[..n])
      && (loop.contextEnded <==> CancelContext(i) in events[..n])
      && (loop.canceled <==> WasCanceled(states, events, n, i))
      && (Reset(i) in events[..n] ==> Leave(i) in events[..n])
    ensures i >= |states[n].loops| ==>
      && Leave(i) !in events[..n] && Reset(i) !in events[..n] && Exit(i) !in events[..n]
      && CancelContext(i) !in events[..n] && !WasCanceled(states, events, n, i)
  {
    if n > 0 {
      assert Next(states[n - 1], events[n - 1], states[n]);
      assert events[..n] == events[..n - 1] + [events[n - 1]];
      hide Next, WasCanceled, Cancels;
      LoopIsHistory(states, events, n - 1, i);
      CanceledLater(states, events, n - 1, i);
      LoopStep(states[n - 1], events[n - 1], states[n], i);
    }
  }

  lemma StepAfterClose(s: State, e: Event, s': State)
    requires Inv(s) && Next(s, e, s') && ClosePassed(s)
    ensures ClosePassed(s') && |s'.loops| == |s.loops|
  {
  }

  /** Once the first Close is past its StopWatching section there is no current
      loop, then or ever after, and no loop is started any more. */
  lemma {:induction false} NoCurrentAfterClose(states: seq<State>, events: seq<Event>, i: nat, n: nat, j: nat)
    requires IsRun(states, events) && i <= n < |states| && ClosePassed(states[i])
    ensures ClosePassed(states[n]) && !Current(states[n], j) && !states[n].w.watching
    ensures |states[n].loops| == |states[i].loops|
    decreases n - i
  {
    hide Next, Inv, ClosePassed;
    RunKeepsInv(states, events, n);
    if i < n {
      NoCurrentAfterClose(states, events, i, n - 1, j);
      RunKeepsInv(states, events, n - 1);
      StepAfterClose(states[n - 1], events[n - 1], states[n]);
    }
    PassedMeansIdle(states[n], j);
  }

  lemma PassedMeansIdle(s: State, j: nat)
    requires Inv(s) && ClosePassed(s)
    ensures !Current(s, j) && !s.w.watching
  {
  }

  /** When the first Close has returned, the loop it took over has exited, and every loop that has
      not was taken over by another StopWatching, which still holds or joins it, or leaves by itself. */
  lemma CloseReturned(states: seq<State>, events: seq<Event>, n: nat, t: nat, i: nat)
    requires IsRun(states, events) && n < |states| && i < |states[n].loops|
    requires t in states[n].callers && states[n].callers[t].Returned? && states[n].callers[t].closing
    ensures states[n].callers[t].joined == Some(i) ==> states[n].loops[i].phase.Exited?
    ensures !states[n].loops[i].phase.Exited? ==>
              Held(states[n], i) || Joined(states[n], i) || LeavesItself(states[n].loops[i])
  {
    RunKeepsInv(states, events, n);
    assert Owned(states[n], i) && CallerOk(states[n], states[n].callers[t]);
    CloseLeftClosing(states, events, n, t);
  }

  /** Only the first Close gets past the swap, so there is at most one closing caller. */
  lemma {:induction false} OneClose(states: seq<State>, events: seq<Event>, n: nat, t: nat, u: nat)
    requires IsRun(states, events) && n < |states| && t in states[n].callers && u in states[n].callers
    requires IsClosing(states[n].callers[t]) && IsClosing(states[n].callers[u])
    ensures t == u && states[n].w.closed
  {
    assert Next(states[n - 1], events[n - 1], states[n]);
    RunKeepsInv(states, events, n);
    RunKeepsInv(states, events, n - 1);
    if events[n - 1].BeginClose? {
      assert t in states[n - 1].callers ==> CallerOk(states[n - 1], states[n - 1].callers[t]);
      assert u in states[n - 1].callers ==> CallerOk(states[n - 1], states[n - 1].callers[u]);
    } else {
      OneClose(states, events, n - 1, t, u);
    }
  }

  predicate IsClosing(c: Caller) {
    c.Closing? || (!c.Repeated? && c.closing)
  }

  lemma CloseLeftClosing(states: seq<State>, events: seq<Event>, n: nat, t: nat)
    requires IsRun(states, events) && n < |states|
    requires t in states[n].callers && states[n].callers[t].Returned? && states[n].callers[t].closing
    ensures ClosePassed(states[n])
  {
    OneClose(states, events, n, t, t);
    forall u | u in states[n].callers
      ensures !states[n].callers[u].Closing?
    {
      if states[n].callers[u].Closing? {
        OneClose(states, events, n, t, u);
      }
    }
  }

  /** So Close may return while a loop still runs: another StopWatching took it over first. */
  lemma CloseReturnsEarly() returns (states: seq<State>, events: seq<Event>)
    ensures IsRun(states, events) && events == [ReadFlag, Start(true), Take(0), BeginClose(1), Take(1)]
    ensures 1 in states[5].callers && states[5].callers[1] == Returned(None, true)
    ensures |states[5].loops| == 1 && states[5].loops[0].phase.Running?
  {
    events := [ReadFlag, Start(true), Take(0), BeginClose(1), Take(1)];
    var s1 := Effect(Init(), ReadFlag);
    var s2 := Effect(s1, Start(true));
    var s3 := Effect(s2, Take(0));
    var s4 := Effect(s3, BeginClose(1));
    states := [Init(), s1, s2, s3, s4, Effect(s4, Take(1))];
  }

  /** A repeated Close, which returns at the flag, does not even wait for the current loop: it
      may return while the first Close has yet to stop that loop. */
  lemma RepeatedCloseReturns() returns (states: seq<State>, events: seq<Event>)
    ensures IsRun(states, events) && events == [ReadFlag, Start(true), BeginClose(0), RepeatClose(1)]
    ensures 1 in states[4].callers && states[4].callers[1].Repeated? && |states[4].loops| == 1
    ensures Current(states[4], 0) && !Held(states[4], 0) && !Joined(states[4], 0) && !LeavesItself(states[4].loops[0])
  {
    events := [ReadFlag, Start(true), BeginClose(0), RepeatClose(1)];
    var s1 := Effect(Init(), ReadFlag);
    var s2 := Effect(s1, Start(true));
    var s3 := Effect(s2, BeginClose(0));
    states := [Init(), s1, s2, s3, Effect(s3, RepeatClose(1))];
  }

  // When the first Close does wait for every loop

  predicate AllExited(s: State) {
    forall j :: 0 <= j < |s.loops| ==> s.loops[j].phase.Exited?
  }

  /** Every loop but the current one has exited. */
  predicate OthersExited(s: State) {
    forall j :: 0 <= j < |s.loops| && !Current(s, j) ==> s.loops[j].phase.Exited?
  }

  predicate Waits(c: Caller, j: nat) {
    (c.Holding? || c.Joining?) && c.i == j
  }

  /** The loops that have not exited are the one Close waits for. */
  ghost predicate Rest(s: State, t: nat) {
    && ClosePassed(s) && t in s.callers
    && forall j :: 0 <= j < |s.loops| && !s.loops[j].phase.Exited? ==> Waits(s.callers[t], j)
  }

  lemma TakeLeavesRest(s: State, t: nat, s': State)
    requires Inv(s) && Next(s, Take(t), s') && t in s.callers && s.callers[t].Closing? && OthersExited(s)
    requires ClosePassed(s')
    ensures Rest(s', t)
  {
    forall j | 0 <= j < |s'.loops| && !s'.loops[j].phase.Exited?
      ensures Waits(s'.callers[t], j)
    {
      assert Current(s, j);
    }
  }

  lemma RestStays(s: State, e: Event, s': State, t: nat)
    requires Inv(s) && Next(s, e, s') && Rest(s, t) && !s.callers[t].Repeated?
    ensures Rest(s', t) && !s'.callers[t].Repeated?
  {
    StepAfterClose(s, e, s');
    assert CallerOk(s, s.callers[t]);
  }

  /** After the section of the first Close nobody is about to close. */
  lemma TakePasses(states: seq<State>, events: seq<Event>, i: nat, t: nat)
    requires IsRun(states, events) && i < |events| && events[i] == Take(t)
    requires t in states[i].callers && states[i].callers[t].Closing?
    ensures ClosePassed(states[i + 1])
  {
    OneClose(states, events, i, t, t);
    var s, s' := states[i], states[i + 1];
    assert Next(s, events[i], s');
    forall u | u in s'.callers
      ensures !s'.callers[u].Closing?
    {
      if u != t && s.callers[u].Closing? {
        OneClose(states, events, i, t, u);
      }
    }
  }

  lemma {:induction false} CloseWaits(states: seq<State>, events: seq<Event>, i: nat, n: nat, t: nat)
    requires IsRun(states, events) && i < n < |states| && events[i] == Take(t)
    requires t in states[i].callers && states[i].callers[t].Closing? && OthersExited(states[i])
    ensures Rest(states[n], t) && !states[n].callers[t].Repeated?
  {
    RunKeepsInv(states, events, n - 1);
    assert Next(states[n - 1], events[n - 1], states[n]);
    if n == i + 1 {
      TakePasses(states, events, i, t);
      TakeLeavesRest(states[i], t, states[n]);
    } else {
      hide Next, Inv, Rest;
      CloseWaits(states, events, i, n - 1, t);
      RestStays(states[n - 1], events[n - 1], states[n], t);
    }
  }

  ghost predicate Ends(states: seq<State>, events: seq<Event>, s: State) {
    IsRun(states, events) && states[|events|] == s
  }

  lemma Extend(states: seq<State>, events: seq<Event>, s: State, e: Event)
      returns (states': seq<State>, events': seq<Event>)
    requires Ends(states, events, s) && Enabled(s, e)
    ensures Ends(states', events', Effect(s, e)) && states <= states' && events' == events + [e]
  {
    states', events' := states + [Effect(s, e)], events + [e];
  }

  /** A loop that is asked to leave does, and nothing else moves. */
  lemma LetExit(states: seq<State>, events: seq<Event>, s: State, i: nat)
      returns (states': seq<State>, events': seq<Event>, s': State)
    requires Ends(states, events, s) && i < |s.loops| && !s.starting && !s.w.watching && s.w.done.None?
    requires s.loops[i].phase.Running? || s.loops[i].phase.Leaving?
    ensures Ends(states', events', s') && states <= states' && events <= events'
    ensures s' == s.(loops := Move(s.loops, i, Exited))
  {
    hide Ends;
    states', events', s' := states, events, s;
    if s.loops[i].phase.Running? {
      states', events' := Extend(states', events', s', Leave(i));
      s' := Effect(s', Leave(i));
    }
    states', events' := Extend(states', events', s', Reset(i));
    s' := Effect(s', Reset(i));
    states', events' := Extend(states', events', s', Exit(i));
    s' := Effect(s', Exit(i));
  }

  /** The first Close takes over the current loop, if any, and returns, while another loop stays. */
  lemma ReturnsBefore(states: seq<State>, events: seq<Event>, s: State, t: nat, k: nat)
      returns (states': seq<State>, events': seq<Event>, s': State)
    requires Ends(states, events, s) && Inv(s) && t in s.callers && s.callers[t].Closing? && !s.starting
    requires k < |s.loops| && !Current(s, k) && !s.loops[k].phase.Exited?
    ensures Ends(states', events', s') && states <= states' && events + [Take(t)] <= events'
    ensures t in s'.callers && s'.callers[t].Returned? && k < |s'.loops| && !s'.loops[k].phase.Exited?
  {
    states', events' := Extend(states, events, s, Take(t));
    s' := Effect(s, Take(t));
    if s.w.watching {
      var c := s.w.done.value;
      states', events' := Extend(states', events', s', CallStop(t));
      s' := Effect(s', CallStop(t));
      states', events', s' := LetExit(states', events', s', c);
      states', events' := Extend(states', events', s', Join(t));
      s' := Effect(s', Join(t));
    }
  }

  /** A run in which the section of Close t is followed by its return. */
  ghost predicate ClosesAfter(
      states: seq<State>, events: seq<Event>, t: nat, states': seq<State>, events': seq<Event>) {
    && IsRun(states', events') && states <= states' && events + [Take(t)] <= events'
    && t in states'[|events'|].callers && states'[|events'|].callers[t].Returned?
  }

  /** The first Close, about to enter its StopWatching section, returns with every loop exited in
      all continuations exactly when every loop but the current one has exited by then. */
  lemma CloseWaitsExactly(states: seq<State>, events: seq<Event>, t: nat)
    requires IsRun(states, events)
    requires t in states[|events|].callers && states[|events|].callers[t].Closing? && !states[|events|].starting
    ensures OthersExited(states[|events|]) <==>
            forall states', events' :: ClosesAfter(states, events, t, states', events')
              ==> AllExited(states'[|events'|])
  {
    var s := states[|events|];
    RunKeepsInv(states, events, |events|);
    if OthersExited(s) {
      forall states', events' | ClosesAfter(states, events, t, states', events')
        ensures AllExited(states'[|events'|])
      {
        assert states'[|events|] == s && events'[|events|] == Take(t);
        CloseWaits(states', events', |events|, |events'|, t);
      }
    } else {
      var k :| 0 <= k < |s.loops| && !Current(s, k) && !s.loops[k].phase.Exited?;
      var states', events', s' := ReturnsBefore(states, events, s, t, k);
      assert ClosesAfter(states, events, t, states', events') && !AllExited(states'[|events'|]);
    }
  }

  /** And a loop may be started after the flag is set: its section read the flag before. */
  lemma LateStart() returns (states: seq<State>, events: seq<Event>)
    ensures IsRun(states, events) && events == [ReadFlag, BeginClose(0), Start(true)]
    ensures states[2].w.closed && |states[2].loops| == 0 && Current(states[3], 0)
  {
    events := [ReadFlag, BeginClose(0), Start(true)];
    var s1 := Effect(Init(), ReadFlag);
    var s2 := Effect(s1, BeginClose(0));
    states := [Init(), s1, s2, Effect(s2, Start(true))];
  }

  /** A StartWatching that got past its flag read and finds nothing watched. */
  predicate AboutToStart(s: State) {
    s.starting && !s.w.watching
  }

  ghost predicate Occurs(events: seq<Event>, i: nat, n: nat, e: Event)
    requires n <= |events|
  {
    exists k :: i <= k < n && events[k] == e
  }

  ghost predicate Started(events: seq<Event>, i: nat, n: nat)
    requires n <= |events|
  {
    Occurs(events, i, n, Start(true)) || Occurs(events, i, n, Start(false))
  }

  lemma ClosedStep(s: State, e: Event, s': State)
    requires Next(s, e, s') && s.w.closed
    ensures s'.w.closed
    ensures e.Start? ==> !s'.starting && |s'.loops| == |s.loops| + (if AboutToStart(s) && e.watcherOk then 1 else 0)
    ensures !e.Start? ==>
      |s'.loops| == |s.loops| && s'.starting == s.starting && (AboutToStart(s) <==> AboutToStart(s'))
  {
  }

  lemma OccursLater(events: seq<Event>, i: nat, n: nat, e: Event)
    requires i <= n < |events|
    ensures Occurs(events, i, n + 1, e) <==> Occurs(events, i, n, e) || events[n] == e
  {
    if Occurs(events, i, n, e) {
      var k :| i <= k < n && events[k] == e;
      assert i <= k < n + 1 && events[k] == e;
    }
  }

  /** What happens once the flag is set, exactly: the one StartWatching that read it before, if
      any, still starts its loop when its section goes on and the watcher can be created, and
      no other loop is ever started. */
  lemma {:induction false} LoopsAfterClose(states: seq<State>, events: seq<Event>, i: nat, n: nat)
    requires IsRun(states, events) && i <= n < |states| && states[i].w.closed
    ensures states[n].w.closed
    ensures |states[n].loops| ==
            |states[i].loops| + (if AboutToStart(states[i]) && Occurs(events, i, n, Start(true)) then 1 else 0)
    ensures if Started(events, i, n) then !states[n].starting
            else states[n].starting == states[i].starting && (AboutToStart(states[i]) <==> AboutToStart(states[n]))
    decreases n - i
  {
    if i < n {
      hide Occurs;
      LoopsAfterClose(states, events, i, n - 1);
      ClosedStep(states[n - 1], events[n - 1], states[n]);
      OccursLater(events, i, n - 1, Start(true));
      OccursLater(events, i, n - 1, Start(false));
    }
  }

  /** No StopWatching or Close is stuck: it has a step to take, or the StartWatching that holds the
      lock has, or the loop it waits for. A running loop's context may end at any time. */
  lemma StopNeverStuck(states: seq<State>, events: seq<Event>, n: nat, t: nat)
    requires IsRun(states, events) && n < |states| && t in states[n].callers
    requires !states[n].callers[t].Returned? && !states[n].callers[t].Repeated?
    ensures
      var s := states[n];
      || Enabled(s, Take(t)) || Enabled(s, CallStop(t)) || Enabled(s, Join(t)) || Enabled(s, Start(true))
      || (s.callers[t].Joining? && s.callers[t].i < |s.loops|
          && var i := s.callers[t].i;
             Enabled(s, CancelContext(i)) && (Enabled(s, Leave(i)) || Enabled(s, Reset(i)) || Enabled(s, Exit(i))))
  {
    RunKeepsInv(states, events, n);
    assert CallerOk(states[n], states[n].callers[t]);
  }
}
