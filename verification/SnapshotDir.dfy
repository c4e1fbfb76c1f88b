/**
 The plugin manager's private snapshot directory: created on first use, counted
 by the opens that work inside it, and removed by Close or by the last open that
 outlives Close. Each method of the class is one lock section.
 */
module SnapshotDir {
  import opened Wrappers

  /** snapDir, snapActive and the closed flag; directories are numbered. */
  datatype Snap = Snap(closed: bool, dir: Option<nat>, active: nat)

  datatype EnsureResult = ErrClosed | ErrCreate | Dir(dir: nat)

  /** ensureSnapshotDir after it read the closed flag as unset; made is the outcome of creating
      a fresh directory. */
  function EnsureRest(s: Snap, made: Option<nat>): (Snap, EnsureResult) {
    if s.dir.Some? then (s, Dir(s.dir.value))
    else if made.None? then (s, ErrCreate)
    else (s.(dir := made), Dir(made.value))
  }

  /** The whole of ensureSnapshotDir, when Close does not set the flag in the middle of it. */
  function Ensure(s: Snap, made: Option<nat>): (Snap, EnsureResult) {
    if s.closed then (s, ErrClosed) else EnsureRest(s, made)
  }

  /** removeSnapshotDir; removable is the outcome of deleting the directory. */
  function Remove(s: Snap, removable: bool): Snap {
    if s.active != 0 || s.dir.None? || !removable then s else s.(dir := None)
  }

  predicate RemoveFails(s: Snap, removable: bool) {
    s.active == 0 && s.dir.Some? && !removable
  }

  class Manager {
    var closed: bool
    var snapDir: Option<nat>
    var snapActive: nat

    function View(): Snap
      reads this
    {
      Snap(closed, snapDir, snapActive)
    }

    constructor ()
      ensures View() == Snap(false, None, 0)
    {
      closed, snapDir, snapActive := false, None, 0;
    }

    method EnsureSnapshotDir(made: Option<nat>) returns (r: EnsureResult)
      modifies this
      ensures (View(), r) == Ensure(old(View()), made)
    {
      if closed {
        return ErrClosed;
      }
      if snapDir.Some? {
        return Dir(snapDir.value);
      }
      if made.None? {
        return ErrCreate;
      }
      snapDir := made;
      return Dir(made.value);
    }

    /** The second lock section of openVerified. */
    method Acquire() returns (ok: bool)
      modifies this
      ensures ok == !old(closed)
      ensures View() == if ok then old(View()).(active := old(snapActive) + 1) else old(View())
    {
      if closed {
        return false;
      }
      snapActive := snapActive + 1;
      return true;
    }

    /** The lock section of releaseSnapshot. */
    method Release()
      requires snapActive > 0
      modifies this
      ensures View() == old(View()).(active := old(snapActive) - 1)
    {
      snapActive := snapActive - 1;
    }

    method RemoveSnapshotDir(removable: bool) returns (failed: bool)
      modifies this
      ensures View() == Remove(old(View()), removable)
      ensures failed == RemoveFails(old(View()), removable)
    {
      failed := false;
      if snapActive != 0 {
        return;
      }
      if snapDir.None? {
        return;
      }
      if !removable {
        failed := true;
        return;
      }
      snapDir := None;
    }
  }

  /** An opener runs the function passed to the handle cache; a closer runs
      Close. Quit covers every early return and every use of ensureSnapshotDir
      that opens nothing. Close sets the flag without snapMu, so it may be set
      while an opener is Ensuring or Acquiring. */
  datatype Thread =
    | Ensuring                // holds snapMu, read the flag as unset
    | Ensured(dir: nat)
    | Acquiring(dir: nat)     // holds snapMu again, read the flag as unset
    | Working(dir: nat)       // counted in snapActive
    | Released                // decremented, closed flag not yet re-read
    | Removing                // owes a call of removeSnapshotDir
    | Finished

  /** disk is the set of snapshot directories that exist; used numbers them. holder is
      the opener between its flag read and the rest of its section. failed records that
      some removal failed. */
  datatype State = State(
    snap: Snap, holder: Option<nat>, disk: set<nat>, used: nat, threads: map<nat, Thread>, failed: bool)

  datatype Event =
    | ReadFlag(t: nat)
    | EnsureDir(t: nat, created: bool)
    | ReadFlagAgain(t: nat)
    | Acquire(t: nat)
    | Quit(t: nat)
    | Release(t: nat)
    | ReadClosed(t: nat)
    | RemoveDir(t: nat, removable: bool)
    | BeginClose(t: nat)

  function Init(): State {
    State(Snap(false, None, 0), None, {}, 0, map[], false)
  }

  predicate Enabled(s: State, e: Event) {
    match e
    case ReadFlag(t) => t !in s.threads && s.holder.None?
    case EnsureDir(t, _) => t in s.threads && s.threads[t].Ensuring? && s.holder == Some(t)
    case ReadFlagAgain(t) => t in s.threads && s.threads[t].Ensured? && s.holder.None?
    case Acquire(t) => t in s.threads && s.threads[t].Acquiring? && s.holder == Some(t)
    case Quit(t) => t in s.threads && s.threads[t].Ensured?
    case Release(t) => t in s.threads && s.threads[t].Working? && s.snap.active > 0 && s.holder.None?
    case ReadClosed(t) => t in s.threads && s.threads[t].Released?
    case RemoveDir(t, _) => t in s.threads && s.threads[t].Removing? && s.holder.None?
    case BeginClose(t) => t !in s.threads
  }

  function Effect(s: State, e: Event): State
    requires Enabled(s, e)
  {
    match e
    case ReadFlag(t) =>
      if s.snap.closed then s.(threads := s.threads[t := Finished])
      else s.(holder := Some(t), threads := s.threads[t := Ensuring])
    case EnsureDir(t, created) =>
      var (snap, r) := EnsureRest(s.snap, if created then Some(s.used) else None);
      var made := snap.dir != s.snap.dir;
      s.(snap := snap,
         holder := None,
         disk := if made then s.disk + {s.used} else s.disk,
         used := if made then s.used + 1 else s.used,
         threads := s.threads[t := if r.Dir? then Ensured(r.dir) else Finished])
    case ReadFlagAgain(t) =>
      if s.snap.closed then s.(threads := s.threads[t := Finished])
      else s.(holder := Some(t), threads := s.threads[t := Acquiring(s.threads[t].dir)])
    case Acquire(t) =>
      s.(snap := s.snap.(active := s.snap.active + 1),
         holder := None,
         threads := s.threads[t := Working(s.threads[t].dir)])
    case Quit(t) => s.(threads := s.threads[t := Finished])
    case Release(t) => s.(snap := s.snap.(active := s.snap.active - 1), threads := s.threads[t := Released])
    case ReadClosed(t) => s.(threads := s.threads[t := if s.snap.closed then Removing else Finished])
    case RemoveDir(t, removable) =>
      s.(snap := Remove(s.snap, removable),
         disk := if Remove(s.snap, removable) != s.snap then s.disk - {s.snap.dir.value} else s.disk,
         threads := s.threads[t := Finished],
         failed := s.failed || RemoveFails(s.snap, removable))
    case BeginClose(t) => s.(snap := s.snap.(closed := true), threads := s.threads[t := Removing])
  }

  predicate Next(s: State, e: Event, s': State) {
    Enabled(s, e) && s' == Effect(s, e)
  }

  ghost predicate IsRun(states: seq<State>, events: seq<Event>) {
    && |states| == |events| + 1
    && states[0] == Init()
    && forall i :: 0 <= i < |events| ==> Next(states[i], events[i], states[i + 1])
  }

  function Workers(threads: map<nat, Thread>): set<nat> {
    set t | t in threads && threads[t].Working?
  }

  /** t will still call removeSnapshotDir if the manager is closed. */
  predicate Owes(threads: map<nat, Thread>, t: nat) {
    t in threads && (threads[t].Working? || threads[t].Released? || threads[t].Removing?)
  }

  ghost predicate SomeoneOwes(threads: map<nat, Thread>) {
    exists t :: Owes(threads, t)
  }

  /** The recorded directory is the only one on disk. */
  ghost predicate DiskOk(s: State) {
    && s.disk == (if s.snap.dir.Some? then {s.snap.dir.value} else {})
    && (s.snap.dir.Some? ==> s.snap.dir.value < s.used)
  }

  ghost predicate ThreadOk(snap: Snap, th: Thread) {
    match th
    case Ensured(dir) => !snap.closed ==> snap.dir == Some(dir)
    case Acquiring(dir) => snap.dir == Some(dir)
    case Working(dir) => snap.dir == Some(dir)
    case _ => true
  }

  /** snapMu is held exactly by the opener that is past a flag read; and if the flag was set
      since, a Close is waiting for the lock to remove the directory. */
  ghost predicate HolderOk(s: State) {
    && (forall t :: t in s.threads && (s.threads[t].Ensuring? || s.threads[t].Acquiring?) ==> s.holder == Some(t))
    && (s.holder.Some? && s.snap.closed ==> exists t :: t in s.threads && s.threads[t].Removing?)
  }

  ghost predicate Inv(s: State) {
    && DiskOk(s)
    && HolderOk(s)
    && s.snap.active == |Workers(s.threads)|
    && (forall t :: t in s.threads ==> ThreadOk(s.snap, s.threads[t]))
    && (forall t :: t in s.threads && s.threads[t].Removing? ==> s.snap.closed)
    && (s.snap.closed && s.snap.dir.Some? && !s.failed ==> SomeoneOwes(s.threads))
  }

  lemma WorkersAfter(threads: map<nat, Thread>, t: nat, th: Thread)
    ensures Workers(threads[t := th]) == Workers(threads) - {t} + (if th.Working? then {t} else {})
  {
  }

  /** snapActive counts the active opens. */
  lemma CountKept(s: State, e: Event, s': State)
    requires s.snap.active == |Workers(s.threads)| && Next(s, e, s')
    ensures s'.snap.active == |Workers(s'.threads)|
  {
    WorkersAfter(s.threads, e.t, s'.threads[e.t]);
    assert e.t in Workers(s.threads) <==> e.Release?;
  }

  lemma ThreadsKept(s: State, e: Event, s': State)
    requires Inv(s) && Next(s, e, s')
    ensures forall t :: t in s'.threads ==> ThreadOk(s'.snap, s'.threads[t])
    ensures forall t :: t in s'.threads && s'.threads[t].Removing? ==> s'.snap.closed
  {
    forall t | t in s'.threads
      ensures ThreadOk(s'.snap, s'.threads[t])
    {
      assert e.t in s.threads ==> ThreadOk(s.snap, s.threads[e.t]);
      if t != e.t {
        assert ThreadOk(s.snap, s.threads[t]);
        if e.RemoveDir? && s.threads[t].Working? {
          assert t in Workers(s.threads);
        }
      }
    }
  }

  lemma NextKeepsInv(s: State, e: Event, s': State)
    requires Inv(s) && Next(s, e, s')
    ensures Inv(s')
  {
    CountKept(s, e, s');
    ThreadsKept(s, e, s');
    HolderKept(s, e, s');
    DiskKept(s, e, s');
    hide Next, DiskOk, HolderOk, ThreadOk;
    if s'.snap.closed && s'.snap.dir.Some? && !s'.failed {
      StillOwed(s, e, s');
    }
  }

  lemma DiskKept(s: State, e: Event, s': State)
    requires DiskOk(s) && Next(s, e, s')
    ensures DiskOk(s')
  {
  }

  lemma HolderKept(s: State, e: Event, s': State)
    requires Inv(s) && Next(s, e, s')
    ensures HolderOk(s')
  {
    if s'.holder.Some? && s'.snap.closed {
      if e.BeginClose? {
        assert s'.threads[e.t].Removing?;
      } else {
        var c :| c in s.threads && s.threads[c].Removing?;
        assert s'.threads[c] == s.threads[c];
      }
    }
  }

  lemma StillOwed(s: State, e: Event, s': State)
    requires Inv(s) && Next(s, e, s')
    requires s'.snap.closed && s'.snap.dir.Some? && !s'.failed
    ensures SomeoneOwes(s'.threads)
  {
    if e.BeginClose? || e.Release? || e.Acquire? || (e.ReadClosed? && s.snap.closed) {
      assert Owes(s'.threads, e.t);
    } else if e.EnsureDir? {
      var c :| c in s.threads && s.threads[c].Removing?;
      assert Owes(s'.threads, c);
    } else {
      var o :| Owes(s.threads, o);
      if e.RemoveDir? && o == e.t {
        assert s.snap.active != 0;
        assert Workers(s.threads) != {};
        var w :| w in Workers(s.threads);
        assert Owes(s'.threads, w);
      } else {
        assert Owes(s'.threads, o);
      }
    }
  }

  lemma {:induction false} RunKeepsInv(states: seq<State>, events: seq<Event>, n: nat)
    requires IsRun(states, events) && n < |states|
    ensures Inv(states[n])
  {
    if n > 0 {
      RunKeepsInv(states, events, n - 1);
      NextKeepsInv(states[n - 1], events[n - 1], states[n]);
    }
  }

  /** Safety: in every state of every run, the directory an active open works in
      exists on disk; and no step removes a directory while any open is active. */
  lemma DirOutlivesOpens(states: seq<State>, events: seq<Event>, n: nat, t: nat)
    requires IsRun(states, events) && n < |states|
    requires t in states[n].threads && states[n].threads[t].Working?
    ensures states[n].threads[t].dir in states[n].disk && states[n].snap.active > 0
    ensures n < |events| ==> states[n].disk <= states[n + 1].disk
  {
    RunKeepsInv(states, events, n);
    assert ThreadOk(states[n].snap, states[n].threads[t]);
    assert t in Workers(states[n].threads);
  }

  /** An opener past its flag read that is about to create a directory. */
  predicate AboutToCreate(s: State) {
    && s.holder.Some? && s.holder.value in s.threads && s.threads[s.holder.value].Ensuring?
    && s.snap.dir.None?
  }

  ghost predicate Created(events: seq<Event>, i: nat, n: nat)
    requires n <= |events|
  {
    exists k :: i <= k < n && events[k].EnsureDir? && events[k].created
  }

  lemma StepAfterClose(s: State, e: Event, s': State)
    requires Inv(s) && Next(s, e, s') && s.snap.closed
    ensures s'.snap.closed
    ensures s'.used == s.used + (if AboutToCreate(s) && e.EnsureDir? && e.created then 1 else 0)
    ensures AboutToCreate(s') ==> AboutToCreate(s) && s'.holder == s.holder
    ensures e.EnsureDir? ==> s'.holder.None?
    ensures s'.holder.Some? ==> s'.holder == s.holder
    ensures !e.EnsureDir? && AboutToCreate(s) ==> AboutToCreate(s')
  {
    if e.RemoveDir? {
      assert s'.snap.dir == s.snap.dir || s'.snap.dir.None?;
    }
  }

  /** What happens once Close has set the flag, exactly: the one opener that read the flag
      before, if any, still creates its directory, and no other directory is ever created. */
  lemma {:induction false} DirsAfterClose(states: seq<State>, events: seq<Event>, i: nat, n: nat)
    requires IsRun(states, events) && i <= n < |states| && states[i].snap.closed
    ensures states[n].snap.closed
    ensures states[n].used == states[i].used + (if AboutToCreate(states[i]) && Created(events, i, n) then 1 else 0)
    ensures AboutToCreate(states[n]) ==> AboutToCreate(states[i])
    ensures states[n].holder.Some? ==> states[n].holder == states[i].holder
    ensures AboutToCreate(states[i]) && !AboutToCreate(states[n]) ==> states[n].holder.None?
    ensures AboutToCreate(states[n]) ==> !Created(events, i, n)
    decreases n - i
  {
    if i < n {
      hide Next, Inv, AboutToCreate, Created;
      assert Next(states[n - 1], events[n - 1], states[n]);
      RunKeepsInv(states, events, n - 1);
      DirsAfterClose(states, events, i, n - 1);
      StepAfterClose(states[n - 1], events[n - 1], states[n]);
      CreatedLater(events, i, n - 1);
    }
  }

  lemma CreatedLater(events: seq<Event>, i: nat, n: nat)
    requires i <= n < |events|
    ensures Created(events, i, n + 1) <==> Created(events, i, n) || (events[n].EnsureDir? && events[n].created)
  {
    if Created(events, i, n) {
      var k :| i <= k < n && events[k].EnsureDir? && events[k].created;
      assert i <= k < n + 1 && events[k].EnsureDir? && events[k].created;
    }
  }

  /** No directory is created, and none comes back, once a removeSnapshotDir of Close or of the
      last open has run on the closed manager. */
  lemma {:induction false} NoDirAfterRemoval(states: seq<State>, events: seq<Event>, i: nat, n: nat)
    requires IsRun(states, events) && i < n < |states| && events[i].RemoveDir?
    ensures states[n].used == states[i].used && states[n].disk <= states[i + 1].disk
    decreases n - i
  {
    RunKeepsInv(states, events, i);
    assert Next(states[i], events[i], states[i + 1]);
    DirsAfterClose(states, events, i + 1, n);
    if i + 1 < n {
      NoDirAfterRemoval(states, events, i, n - 1);
      assert Next(states[n - 1], events[n - 1], states[n]);
    }
  }

  /** The race is real: a directory is created after Close has set the flag, and Close, which
      waits for the lock, removes it. */
  lemma LateDirectory() returns (states: seq<State>, events: seq<Event>)
    ensures IsRun(states, events)
    ensures events == [ReadFlag(0), BeginClose(1), EnsureDir(0, true), RemoveDir(1, true)]
    ensures states[2].snap.closed && states[2].disk == {} && states[3].disk == {0} && states[4].disk == {}
  {
    events := [ReadFlag(0), BeginClose(1), EnsureDir(0, true), RemoveDir(1, true)];
    var s1 := Effect(Init(), events[0]);
    var s2 := Effect(s1, events[1]);
    var s3 := Effect(s2, events[2]);
    states := [Init(), s1, s2, s3, Effect(s3, events[3])];
  }

  /** Every creation and every open began with a read of the unset flag, under the lock held since. */
  lemma {:induction false} HolderReadTheFlag(states: seq<State>, events: seq<Event>, n: nat) returns (k: nat)
    requires IsRun(states, events) && n < |states| && states[n].holder.Some?
    ensures k < n && !states[k].snap.closed
      && (events[k] == ReadFlag(states[n].holder.value) || events[k] == ReadFlagAgain(states[n].holder.value))
    ensures forall m :: k < m <= n ==> states[m].holder == states[n].holder
  {
    assert Next(states[n - 1], events[n - 1], states[n]);
    if events[n - 1].ReadFlag? || events[n - 1].ReadFlagAgain? {
      k := n - 1;
    } else {
      k := HolderReadTheFlag(states, events, n - 1);
    }
  }

  /** No leak: a closed manager with a directory left has a Close or a release
      that still owes its removal, or a removal failed. */
  lemma NoLeak(states: seq<State>, events: seq<Event>, n: nat)
    requires IsRun(states, events) && n < |states|
    requires states[n].snap.closed && states[n].disk != {}
    ensures SomeoneOwes(states[n].threads) || states[n].failed
  {
    RunKeepsInv(states, events, n);
  }

  /** So when all openers and closers have finished and no removal failed,
      nothing is left on disk. */
  lemma QuietMeansClean(states: seq<State>, events: seq<Event>, n: nat)
    requires IsRun(states, events) && n < |states|
    requires states[n].snap.closed && !states[n].failed
    requires forall t :: t in states[n].threads ==> states[n].threads[t].Finished? || states[n].threads[t].Ensured?
    ensures states[n].disk == {} && states[n].snap.active == 0
  {
    RunKeepsInv(states, events, n);
    assert Workers(states[n].threads) == {};
  }

  /** A removal attempted with no open active, by a first or a repeated Close,
      cleans up whatever earlier attempts failed to. */
  lemma RetryCleans(states: seq<State>, events: seq<Event>, n: nat)
    requires IsRun(states, events) && n < |events|
    requires events[n].RemoveDir? && events[n].removable
    requires forall t :: t in states[n].threads ==> !states[n].threads[t].Working?
    ensures states[n + 1].disk == {} && states[n + 1].snap.dir.None?
  {
    RunKeepsInv(states, events, n);
    assert Workers(states[n].threads) == {};
  }

  /** A closed manager hands out no directory and makes none; what is handed out is the one recorded,
      and a recorded one is never replaced. */
  lemma EnsureHandsOut(s: Snap, made: Option<nat>)
    ensures s.closed ==> Ensure(s, made) == (s, ErrClosed)
    ensures !s.closed ==> (Ensure(s, made).1.Dir? <==> s.dir.Some? || made.Some?)
    ensures Ensure(s, made).1.Dir? ==> Ensure(s, made).0.dir == Some(Ensure(s, made).1.dir)
    ensures s.dir.Some? ==> Ensure(s, made).0 == s
    ensures Ensure(s, made).0.closed == s.closed && Ensure(s, made).0.active == s.active
  {
  }

  /** An opener that reads the flag as set, at the start or before it counts itself in, is done, and
      so is one that quits. */
  lemma {:induction false} LateOpenerStops(states: seq<State>, events: seq<Event>, k: nat, n: nat)
    requires IsRun(states, events) && k < n < |states|
    requires (states[k].snap.closed && (events[k].ReadFlag? || events[k].ReadFlagAgain?)) || events[k].Quit?
    ensures events[k].t in states[n].threads && states[n].threads[events[k].t].Finished?
    decreases n - k
  {
    assert Next(states[n - 1], events[n - 1], states[n]);
    if k < n - 1 {
      LateOpenerStops(states, events, k, n - 1);
    }
  }

  ghost predicate Ends(states: seq<State>, events: seq<Event>, s: State) {
    IsRun(states, events) && states[|events|] == s
  }

  lemma Extend(states: seq<State>, events: seq<Event>, s: State, e: Event)
      returns (states': seq<State>, events': seq<Event>)
    requires Ends(states, events, s) && Enabled(s, e)
    ensures Ends(states', events', Effect(s, e)) && events' == events + [e]
  {
    states', events' := states + [Effect(s, e)], events + [e];
  }

  /** An opener makes the directory and works in it. */
  lemma OpenWorks() returns (states: seq<State>, events: seq<Event>, s: State)
    ensures Ends(states, events, s)
    ensures s == State(Snap(false, Some(0), 1), None, {0}, 1, map[0 := Working(0)], false)
  {
    states, events, s := [Init()], [], Init();
    hide Ends;
    states, events := Extend(states, events, s, ReadFlag(0));
    s := Effect(s, ReadFlag(0));
    states, events := Extend(states, events, s, EnsureDir(0, true));
    s := Effect(s, EnsureDir(0, true));
    states, events := Extend(states, events, s, ReadFlagAgain(0));
    s := Effect(s, ReadFlagAgain(0));
    states, events := Extend(states, events, s, Acquire(0));
    s := Effect(s, Acquire(0));
  }

  /** A Close that comes while an open works leaves the directory in place, and the open's release
      removes it. */
  lemma OpenOutlivesClose()
      returns (states: seq<State>, events: seq<Event>, s: State, states': seq<State>, events': seq<Event>, s': State)
    ensures Ends(states, events, s) && RemoveDir(1, true) in events
    ensures s.snap.closed && s.disk == {0} && 0 in s.threads && s.threads[0] == Working(0)
    ensures Ends(states', events', s') && events' == events + [Release(0), ReadClosed(0), RemoveDir(0, true)]
    ensures s'.snap.closed && s'.disk == {} && !s'.failed
  {
    states, events, s := OpenWorks();
    hide Ends;
    states, events := Extend(states, events, s, BeginClose(1));
    s := Effect(s, BeginClose(1));
    states, events := Extend(states, events, s, RemoveDir(1, true));
    s := Effect(s, RemoveDir(1, true));
    states', events' := Extend(states, events, s, Release(0));
    s' := Effect(s, Release(0));
    states', events' := Extend(states', events', s', ReadClosed(0));
    s' := Effect(s', ReadClosed(0));
    states', events' := Extend(states', events', s', RemoveDir(0, true));
    s' := Effect(s', RemoveDir(0, true));
  }

  /** The step thread t can take next. */
  predicate CanMove(s: State, t: nat) {
    Enabled(s, EnsureDir(t, true)) || (Enabled(s, ReadFlagAgain(t)) && Enabled(s, Quit(t))) || Enabled(s, Acquire(t))
      || Enabled(s, Release(t)) || Enabled(s, ReadClosed(t)) || Enabled(s, RemoveDir(t, true))
  }

  ghost predicate ThreadHolds(s: State) {
    s.holder.Some? ==>
      s.holder.value in s.threads && (s.threads[s.holder.value].Ensuring? || s.threads[s.holder.value].Acquiring?)
  }

  lemma {:induction false} HolderIsInSection(states: seq<State>, events: seq<Event>, n: nat)
    requires IsRun(states, events) && n < |states|
    ensures ThreadHolds(states[n])
  {
    if n > 0 {
      HolderIsInSection(states, events, n - 1);
      assert Next(states[n - 1], events[n - 1], states[n]);
    }
  }

  /** No call is stuck: it has a step to take, or waits for the opener that holds the lock, which has one. */
  lemma CallNeverStuck(states: seq<State>, events: seq<Event>, n: nat, t: nat)
    requires IsRun(states, events) && n < |states| && t in states[n].threads && !states[n].threads[t].Finished?
    ensures CanMove(states[n], t) || (states[n].holder.Some? && CanMove(states[n], states[n].holder.value))
  {
    var s := states[n];
    RunKeepsInv(states, events, n);
    HolderIsInSection(states, events, n);
    if s.threads[t].Working? {
      assert t in Workers(s.threads);
    }
  }
}
