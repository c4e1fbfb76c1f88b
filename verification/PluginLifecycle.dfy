/**
 The plugin registry and the lifecycle of the plugins in it. The classes follow
 the source's objects; the interleaving model below them covers loads, Unload,
 Quarantine and Close running concurrently.
 */
module PluginLifecycle {
  import opened Wrappers

  datatype Lifecycle = StateLoaded | StateReady | StateFailed | StateUnloaded

  predicate ValidTransition(from: Lifecycle, to: Lifecycle) {
    match from
    case StateLoaded => to.StateReady? || to.StateFailed? || to.StateUnloaded?
    case StateReady => to.StateFailed? || to.StateUnloaded?
    case StateFailed => to.StateUnloaded?
    case StateUnloaded => false
  }

  predicate Accepted(from: Lifecycle, to: Lifecycle) {
    from == to || ValidTransition(from, to)
  }

  /** Order of the lifecycle: valid transitions only move forward, so no state
      is ever entered twice. */
  function Rank(s: Lifecycle): nat {
    match s
    case StateLoaded => 0
    case StateReady => 1
    case StateFailed => 2
    case StateUnloaded => 3
  }

  lemma TransitionsMoveForward(from: Lifecycle, to: Lifecycle)
    ensures ValidTransition(from, to) <==> Rank(from) < Rank(to)
  {
  }

  datatype InitOutcome = NoInit | InitOk | InitError | InitPanic | BadInitType

  class Plugin {
    const name: string
    var state: Lifecycle
    ghost var warnings: nat // invalid transitions logged so far

    constructor (name: string)
      ensures this.name == name && state == StateLoaded && warnings == 0
    {
      this.name := name;
      state := StateLoaded;
      warnings := 0;
    }

    /** Stores the state in any case; an invalid transition is only logged. */
    method SetState(s: Lifecycle)
      modifies this
      ensures state == s
      ensures warnings == old(warnings) + (if Accepted(old(state), s) then 0 else 1)
    {
      if state != s && !ValidTransition(state, s) {
        warnings := warnings + 1;
      }
      state := s;
    }

    /** The Init part of loadPlugin, safeInit's recovery included. */
    method Initialize(out: InitOutcome) returns (ok: bool)
      requires state == StateLoaded
      modifies this
      ensures ok <==> out.NoInit? || out.InitOk?
      ensures state == if ok then StateReady else StateFailed
      ensures warnings == old(warnings)
    {
      match out {
        case BadInitType =>
          SetState(StateFailed);
          return false;
        case InitPanic =>
          SetState(StateFailed);
          return false;
        case InitError =>
          SetState(StateFailed);
          return false;
        case InitOk =>
          SetState(StateReady);
        case NoInit =>
      }
      if state == StateLoaded {
        SetState(StateReady);
      }
      return true;
    }
  }

  class Manager {
    var plugins: map<string, Plugin>
    var closed: bool

    /** Every registered plugin is ready and filed under its own name. */
    ghost predicate Valid()
      reads this, plugins.Values
    {
      forall n :: n in plugins ==> plugins[n].name == n && plugins[n].state == StateReady
    }

    constructor ()
      ensures Valid() && plugins == map[] && !closed
    {
      plugins := map[];
      closed := false;
    }

    method Register(p: Plugin) returns (ok: bool)
      requires Valid() && p.state == StateReady && p !in plugins.Values
      modifies this, p
      ensures Valid() && closed == old(closed) && p.warnings == old(p.warnings)
      ensures ok <==> !closed && p.name !in old(plugins)
      ensures plugins == if ok then old(plugins)[p.name := p] else old(plugins)
      ensures p.state == if ok then StateReady else StateUnloaded
    {
      if closed {
        p.SetState(StateUnloaded);
        return false;
      }
      if p.name in plugins {
        p.SetState(StateUnloaded);
        return false;
      }
      plugins := plugins[p.name := p];
      return true;
    }

    method Unload(name: string) returns (found: bool)
      requires Valid()
      modifies this, plugins.Values
      ensures Valid() && closed == old(closed)
      ensures found <==> name in old(plugins)
      ensures plugins == old(plugins) - {name}
      ensures found ==> old(plugins)[name].state == StateUnloaded
      ensures found ==> old(plugins)[name].warnings == old(plugins[name].warnings)
      ensures forall n :: n in plugins ==> unchanged(plugins[n])
    {
      if name !in plugins {
        return false;
      }
      var p := plugins[name];
      assert forall n :: n in plugins && n != name ==> plugins[n] != p;
      p.SetState(StateUnloaded);
      plugins := plugins - {name};
      return true;
    }

    /** A host quarantining a loaded plugin by name. */
    method Quarantine(name: string) returns (found: bool)
      requires Valid()
      modifies this, plugins.Values
      ensures Valid() && closed == old(closed)
      ensures found <==> !closed && name in old(plugins)
      ensures plugins == if found then old(plugins) - {name} else old(plugins)
      ensures found ==> old(plugins)[name].state == StateFailed
      ensures found ==> old(plugins)[name].warnings == old(plugins[name].warnings)
      ensures forall n :: n in plugins ==> unchanged(plugins[n])
    {
      if closed || name !in plugins {
        return false;
      }
      var p := plugins[name];
      assert forall n :: n in plugins && n != name ==> plugins[n] != p;
      plugins := plugins - {name};
      p.SetState(StateFailed);
      return true;
    }

    /** Close's section: every registered plugin is unloaded, then the map cleared. */
    method Clear()
      requires Valid()
      modifies this, plugins.Values
      ensures plugins == map[] && closed == old(closed)
      ensures forall p :: p in old(plugins).Values ==> p.state == StateUnloaded && p.warnings == old(p.warnings)
    {
      var todo := plugins.Keys;
      while todo != {}
        invariant todo <= plugins.Keys
        invariant plugins == old(plugins) && closed == old(closed)
        invariant forall n :: n in plugins ==> plugins[n].name == n && plugins[n].warnings == old(plugins[n].warnings)
        invariant forall n :: n in plugins ==> plugins[n].state == if n in todo then StateReady else StateUnloaded
        decreases |todo|
      {
        var n :| n in todo;
        todo := todo - {n};
        plugins[n].SetState(StateUnloaded);
      }
      plugins := map[];
    }
  }

  /** A plugin object and whether any setState on it was invalid. */
  datatype Record = Record(name: string, state: Lifecycle, warned: bool)

  function SetTo(r: Record, s: Lifecycle): Record {
    Record(r.name, s, r.warned || !Accepted(r.state, s))
  }

  /** Goroutines between two steps, with the plugin they work on. */
  datatype Thread =
    | Initializing(p: nat)
    | Initialized(p: nat)   // about to register
    | Quarantining(p: nat)  // took it out of the registry, state not yet set
    | Closing               // flag set, registry not yet cleared
    | Finished

  /** `registering` is the load that holds mu in register and has read the closed flag as
      unset. Close sets the flag without mu, so it may be set before the section goes on. */
  datatype State = State(
    registry: map<string, nat>, closed: bool, cleared: bool, registering: Option<nat>, all: seq<Record>,
    threads: map<nat, Thread>)

  datatype Event =
    | Create(t: nat, name: string)
    | Init(t: nat, out: InitOutcome)
    | ReadFlag(t: nat)
    | Register(t: nat)
    | Unload(name: string)
    | Take(t: nat, name: string)  // Quarantine's section
    | MarkFailed(t: nat)
    | BeginClose(t: nat)
    | Clear(t: nat)

  function Start(): State {
    State(map[], false, false, None, [], map[])
  }

  predicate Works(s: State, t: nat) {
    t in s.threads && (s.threads[t].Initializing? || s.threads[t].Initialized? || s.threads[t].Quarantining?)
      && s.threads[t].p < |s.all|
  }

  predicate Enabled(s: State, e: Event) {
    match e
    case Create(t, _) => t !in s.threads
    case Init(t, _) => Works(s, t) && s.threads[t].Initializing?
    case ReadFlag(t) => Works(s, t) && s.threads[t].Initialized? && s.registering.None?
    case Register(t) => Works(s, t) && s.threads[t].Initialized? && s.registering == Some(t)
    case Unload(name) => name in s.registry && s.registry[name] < |s.all| && s.registering.None?
    case Take(t, name) => t !in s.threads && name in s.registry && s.registering.None? // the flag was read earlier
    case MarkFailed(t) => Works(s, t) && s.threads[t].Quarantining?
    case BeginClose(t) => t !in s.threads && !s.closed
    case Clear(t) => t in s.threads && s.threads[t].Closing? && s.registering.None?
  }

  function Update(s: State, p: nat, to: Lifecycle): State
    requires p < |s.all|
  {
    s.(all := s.all[p := SetTo(s.all[p], to)])
  }

  function Effect(s: State, e: Event): State
    requires Enabled(s, e)
  {
    match e
    case Create(t, name) =>
      s.(all := s.all + [Record(name, StateLoaded, false)], threads := s.threads[t := Initializing(|s.all|)])
    case Init(t, out) =>
      var p := s.threads[t].p;
      if out.NoInit? || out.InitOk? then Update(s, p, StateReady).(threads := s.threads[t := Initialized(p)])
      else Update(s, p, StateFailed).(threads := s.threads[t := Finished])
    case ReadFlag(t) =>
      if s.closed then Update(s, s.threads[t].p, StateUnloaded).(threads := s.threads[t := Finished])
      else s.(registering := Some(t))
    case Register(t) =>
      var p, done := s.threads[t].p, s.(registering := None, threads := s.threads[t := Finished]);
      if s.all[p].name in s.registry then Update(done, p, StateUnloaded)
      else done.(registry := s.registry[s.all[p].name := p])
    case Unload(name) => Update(s, s.registry[name], StateUnloaded).(registry := s.registry - {name})
    case Take(t, name) => s.(registry := s.registry - {name}, threads := s.threads[t := Quarantining(s.registry[name])])
    case MarkFailed(t) => Update(s, s.threads[t].p, StateFailed).(threads := s.threads[t := Finished])
    case BeginClose(t) => s.(closed := true, threads := s.threads[t := Closing])
    case Clear(t) =>
      s.(all := seq(|s.all|, i requires 0 <= i < |s.all| =>
                      if i in s.registry.Values then SetTo(s.all[i], StateUnloaded) else s.all[i]),
         registry := map[], cleared := true, threads := s.threads[t := Finished])
  }

  predicate Next(s: State, e: Event, s': State) {
    Enabled(s, e) && s' == Effect(s, e)
  }

  ghost predicate IsRun(states: seq<State>, events: seq<Event>) {
    && |states| == |events| + 1
    && states[0] == Start()
    && forall i :: 0 <= i < |events| ==> Next(states[i], events[i], states[i + 1])
  }

  /** A registered plugin is ready, filed under its own name, and nobody's to change. */
  ghost predicate RegistryOk(s: State) {
    forall n :: n in s.registry ==>
      && s.registry[n] < |s.all|
      && s.all[s.registry[n]].name == n
      && s.all[s.registry[n]].state == StateReady
  }

  ghost predicate ThreadOk(s: State, th: Thread) {
    match th
    case Initializing(p) => p < |s.all| && s.all[p].state == StateLoaded
    case Initialized(p) => p < |s.all| && s.all[p].state == StateReady && p !in s.registry.Values
    case Quarantining(p) => p < |s.all| && s.all[p].state == StateReady && p !in s.registry.Values
    case Closing => s.closed
    case Finished => true
  }

  predicate Holds(th: Thread, p: nat) {
    (th.Initializing? || th.Initialized? || th.Quarantining?) && th.p == p
  }

  ghost predicate Exclusive(s: State) {
    forall t, u, p :: t in s.threads && u in s.threads && Holds(s.threads[t], p) && Holds(s.threads[u], p) ==> t == u
  }

  ghost predicate Inv(s: State) {
    && RegistryOk(s)
    && Exclusive(s)
    && (forall p :: 0 <= p < |s.all| ==> !s.all[p].warned)
    && (forall t :: t in s.threads ==> ThreadOk(s, s.threads[t]))
    && (s.cleared ==> s.closed && s.registry == map[] && s.registering.None?)
    && (s.registering.Some? ==> s.registering.value in s.threads && s.threads[s.registering.value].Initialized?)
  }

  /** Steps that touch one plugin object leave the others' records alone. */
  lemma UpdateKeepsInv(s: State, p: nat, to: Lifecycle, s': State)
    requires Inv(s) && p < |s.all| && Accepted(s.all[p].state, to)
    requires s'.all == s.all[p := SetTo(s.all[p], to)]
    requires s'.closed == s.closed && s'.cleared == s.cleared
    requires forall n :: n in s'.registry ==> n in s.registry && s'.registry[n] == s.registry[n] && s.registry[n] != p
    requires s'.threads.Keys == s.threads.Keys
    requires s'.registering.Some? ==>
      s'.registering == s.registering && s'.threads[s.registering.value] == s.threads[s.registering.value]
    requires forall t :: t in s.threads ==>
      if !Holds(s.threads[t], p) then s'.threads[t] == s.threads[t]
      else s'.threads[t].Finished? || (s'.threads[t] == Initialized(p) && to == StateReady && p !in s'.registry.Values)
    ensures Inv(s')
  {
    forall t | t in s'.threads
      ensures ThreadOk(s', s'.threads[t])
    {
      assert ThreadOk(s, s.threads[t]);
    }
  }

  lemma CreateKeepsInv(s: State, t: nat, name: string, s': State)
    requires Inv(s) && Next(s, Create(t, name), s')
    ensures Inv(s')
  {
    forall u | u in s.threads
      ensures ThreadOk(s', s'.threads[u]) && !Holds(s.threads[u], |s.all|)
    {
      assert ThreadOk(s, s.threads[u]);
    }
  }

  lemma InitKeepsInv(s: State, t: nat, out: InitOutcome, s': State)
    requires Inv(s) && Next(s, Init(t, out), s')
    ensures Inv(s')
  {
    var p := s.threads[t].p;
    assert ThreadOk(s, s.threads[t]);
    UpdateKeepsInv(s, p, if out.NoInit? || out.InitOk? then StateReady else StateFailed, s');
  }

  lemma RegisterKeepsInv(s: State, t: nat, s': State)
    requires Inv(s) && Next(s, Register(t), s')
    ensures Inv(s')
  {
    var p := s.threads[t].p;
    assert ThreadOk(s, s.threads[t]);
    if s.all[p].name in s.registry {
      UpdateKeepsInv(s, p, StateUnloaded, s');
    } else {
      forall u | u in s'.threads
        ensures ThreadOk(s', s'.threads[u])
      {
        assert ThreadOk(s, s.threads[u]);
        assert u != t ==> !Holds(s.threads[u], p);
      }
    }
  }

  lemma ReadFlagKeepsInv(s: State, t: nat, s': State)
    requires Inv(s) && Next(s, ReadFlag(t), s')
    ensures Inv(s')
  {
    assert ThreadOk(s, s.threads[t]);
    if s.closed {
      UpdateKeepsInv(s, s.threads[t].p, StateUnloaded, s');
    } else {
      forall u | u in s'.threads
        ensures ThreadOk(s', s'.threads[u])
      {
        assert ThreadOk(s, s.threads[u]);
      }
    }
  }

  lemma UnloadKeepsInv(s: State, name: string, s': State)
    requires Inv(s) && Next(s, Unload(name), s')
    ensures Inv(s')
  {
    var p := s.registry[name];
    forall t | t in s.threads
      ensures !Holds(s.threads[t], p)
    {
      assert ThreadOk(s, s.threads[t]);
    }
    UpdateKeepsInv(s, p, StateUnloaded, s');
  }

  lemma TakeKeepsInv(s: State, t: nat, name: string, s': State)
    requires Inv(s) && Next(s, Take(t, name), s')
    ensures Inv(s')
  {
    var p := s.registry[name];
    forall u | u in s.threads
      ensures !Holds(s.threads[u], p) && ThreadOk(s', s'.threads[u])
    {
      assert ThreadOk(s, s.threads[u]);
    }
  }

  lemma MarkFailedKeepsInv(s: State, t: nat, s': State)
    requires Inv(s) && Next(s, MarkFailed(t), s')
    ensures Inv(s')
  {
    assert ThreadOk(s, s.threads[t]);
    UpdateKeepsInv(s, s.threads[t].p, StateFailed, s');
  }

  lemma BeginCloseKeepsInv(s: State, t: nat, s': State)
    requires Inv(s) && Next(s, BeginClose(t), s')
    ensures Inv(s')
  {
    forall u | u in s'.threads
      ensures ThreadOk(s', s'.threads[u])
    {
      if u != t {
        assert ThreadOk(s, s.threads[u]);
      }
    }
  }

  lemma ClearKeepsInv(s: State, t: nat, s': State)
    requires Inv(s) && Next(s, Clear(t), s')
    ensures Inv(s')
  {
    forall u | u in s'.threads
      ensures ThreadOk(s', s'.threads[u])
    {
      assert ThreadOk(s, s.threads[u]);
    }
    assert ThreadOk(s, s.threads[t]);
  }

  lemma NextKeepsInv(s: State, e: Event, s': State)
    requires Inv(s) && Next(s, e, s')
    ensures Inv(s')
  {
    match e
    case Create(t, name) => CreateKeepsInv(s, t, name, s');
    case Init(t, out) => InitKeepsInv(s, t, out, s');
    case ReadFlag(t) => ReadFlagKeepsInv(s, t, s');
    case Register(t) => RegisterKeepsInv(s, t, s');
    case Unload(name) => UnloadKeepsInv(s, name, s');
    case Take(t, name) => TakeKeepsInv(s, t, name, s');
    case MarkFailed(t) => MarkFailedKeepsInv(s, t, s');
    case BeginClose(t) => BeginCloseKeepsInv(s, t, s');
    case Clear(t) => ClearKeepsInv(s, t, s');
  }

  lemma {:induction false} RunKeepsInv(states: seq<State>, events: seq<Event>, n: nat)
    requires IsRun(states, events) && n < |states|
    ensures Inv(states[n])
  {
    if n > 0 {
      RunKeepsInv(states, events, n - 1);
      NextKeepsInv(states[n - 1], events[n - 1], states[n]);
    }
  }

  /** Between any two steps, whatever is registered is ready and under its own name,
      so a name has at most one plugin. */
  lemma RegisteredAreReady(states: seq<State>, events: seq<Event>, n: nat, name: string)
    requires IsRun(states, events) && n < |states| && name in states[n].registry
    ensures
      var s := states[n];
      s.registry[name] < |s.all| && s.all[s.registry[name]].name == name && s.all[s.registry[name]].state == StateReady
  {
    RunKeepsInv(states, events, n);
  }

  /** The warning in setState is never logged. */
  lemma EveryTransitionIsValid(states: seq<State>, events: seq<Event>, n: nat, p: nat)
    requires IsRun(states, events) && n < |states| && p < |states[n].all|
    ensures !states[n].all[p].warned
  {
    RunKeepsInv(states, events, n);
  }

  // A plugin's state and registration, read off the run

  datatype Change = Readied | Broken | Unloaded | Registered | Removed

  predicate WorksOn(s: State, t: nat, th: Thread) {
    t in s.threads && s.threads[t] == th
  }

  /** What step e does to plugin p: its Init succeeds; its Init fails or a quarantine marks it; it is
      unloaded by name, by Close or for want of a place in the registry; it takes that place; it is
      taken out. */
  predicate Changes(s: State, e: Event, p: nat, c: Change) {
    match c
    case Readied => e.Init? && WorksOn(s, e.t, Initializing(p)) && (e.out.NoInit? || e.out.InitOk?)
    case Broken =>
      || (e.Init? && WorksOn(s, e.t, Initializing(p)) && (e.out.InitError? || e.out.InitPanic? || e.out.BadInitType?))
      || (e.MarkFailed? && WorksOn(s, e.t, Quarantining(p)))
    case Unloaded =>
      || (e.Unload? && e.name in s.registry && s.registry[e.name] == p)
      || (e.Clear? && InRegistry(s, p))
      || (e.ReadFlag? && WorksOn(s, e.t, Initialized(p)) && s.closed)
      || (e.Register? && WorksOn(s, e.t, Initialized(p)) && p < |s.all| && s.all[p].name in s.registry)
    case Registered =>
      e.Register? && WorksOn(s, e.t, Initialized(p)) && p < |s.all| && s.all[p].name !in s.registry
    case Removed =>
      || ((e.Unload? || e.Take?) && e.name in s.registry && s.registry[e.name] == p)
      || (e.Clear? && InRegistry(s, p))
  }

  ghost predicate Happened(states: seq<State>, events: seq<Event>, n: nat, p: nat, c: Change)
    requires n <= |events| < |states|
  {
    exists k :: 0 <= k < n && Changes(states[k], events[k], p, c)
  }

  lemma HappenedLater(states: seq<State>, events: seq<Event>, n: nat, p: nat, c: Change)
    requires n < |events| < |states|
    ensures Happened(states, events, n + 1, p, c) <==>
      Happened(states, events, n, p, c) || Changes(states[n], events[n], p, c)
  {
    hide Changes;
    if Happened(states, events, n, p, c) {
      var k :| 0 <= k < n && Changes(states[k], events[k], p, c);
      assert 0 <= k < n + 1;
    }
  }

  /** Changes start from the right state. */
  lemma ChangeIsDue(s: State, e: Event, p: nat, c: Change)
    requires Inv(s) && Enabled(s, e) && Changes(s, e, p, c)
    ensures p < |s.all|
    ensures c.Readied? ==> s.all[p].state == StateLoaded
    ensures c.Broken? ==> s.all[p].state == StateLoaded || s.all[p].state == StateReady
    ensures c.Unloaded? || c.Registered? || c.Removed? ==> s.all[p].state == StateReady
    ensures c.Registered? ==> !InRegistry(s, p)
    ensures c.Removed? ==> InRegistry(s, p)
  {
    if e.Init? || e.ReadFlag? || e.Register? || e.MarkFailed? {
      assert ThreadOk(s, s.threads[e.t]);
    }
  }

  lemma StepTellsState(s: State, e: Event, s': State, p: nat)
    requires Inv(s) && Next(s, e, s') && p < |s'.all|
    ensures s'.all[p].state ==
      if p >= |s.all| then StateLoaded
      else if Changes(s, e, p, Readied) then StateReady
      else if Changes(s, e, p, Broken) then StateFailed
      else if Changes(s, e, p, Unloaded) then StateUnloaded
      else s.all[p].state
  {
    if e.Clear? {
      ClearTellsState(s, e.t, s', p);
    } else if e.Init? || e.MarkFailed? {
      InitTellsState(s, e, s', p);
    } else {
      OtherTellsState(s, e, s', p);
    }
  }

  lemma InitTellsState(s: State, e: Event, s': State, p: nat)
    requires Next(s, e, s') && (e.Init? || e.MarkFailed?) && p < |s'.all|
    ensures p < |s.all| && !Changes(s, e, p, Unloaded)
    ensures s'.all[p].state ==
      if Changes(s, e, p, Readied) then StateReady
      else if Changes(s, e, p, Broken) then StateFailed
      else s.all[p].state
  {
  }

  lemma ClearTellsState(s: State, t: nat, s': State, p: nat)
    requires Next(s, Clear(t), s') && p < |s'.all|
    ensures p < |s.all|
    ensures s'.all[p].state == if Changes(s, Clear(t), p, Unloaded) then StateUnloaded else s.all[p].state
    ensures !Changes(s, Clear(t), p, Readied) && !Changes(s, Clear(t), p, Broken)
  {
  }

  lemma OtherTellsState(s: State, e: Event, s': State, p: nat)
    requires Next(s, e, s') && !e.Clear? && !e.Init? && !e.MarkFailed? && p < |s'.all|
    ensures !Changes(s, e, p, Readied) && !Changes(s, e, p, Broken)
    ensures s'.all[p].state ==
      if p >= |s.all| then StateLoaded
      else if Changes(s, e, p, Unloaded) then StateUnloaded
      else s.all[p].state
  {
  }

  lemma StepTellsRegistry(s: State, e: Event, s': State, p: nat)
    requires Inv(s) && Next(s, e, s')
    ensures InRegistry(s', p) <==> Changes(s, e, p, Registered) || (InRegistry(s, p) && !Changes(s, e, p, Removed))
  {
    if e.Register? {
      RegisterTellsRegistry(s, e.t, s', p);
    } else {
      OtherTellsRegistry(s, e, s', p);
    }
  }

  lemma RegisterTellsRegistry(s: State, t: nat, s': State, p: nat)
    requires Inv(s) && Next(s, Register(t), s')
    ensures InRegistry(s', p) <==> Changes(s, Register(t), p, Registered) || InRegistry(s, p)
    ensures !Changes(s, Register(t), p, Removed)
  {
    if InRegistry(s, p) {
      var name :| name in s.registry && s.registry[name] == p;
      assert s'.registry[name] == p;
    }
    if Changes(s, Register(t), p, Registered) {
      assert s'.registry[s.all[p].name] == p;
    }
  }

  lemma OtherTellsRegistry(s: State, e: Event, s': State, p: nat)
    requires Inv(s) && Next(s, e, s') && !e.Register?
    ensures InRegistry(s', p) <==> InRegistry(s, p) && !Changes(s, e, p, Removed)
    ensures !Changes(s, e, p, Registered)
  {
    if InRegistry(s, p) {
      var name :| name in s.registry && s.registry[name] == p;
      assert name in s'.registry ==> s'.registry[name] == p;
      if !Changes(s, e, p, Removed) {
        assert name in s'.registry;
      }
    }
  }

  /** In every run a plugin's state says what happened to it: it has failed exactly when its Init
      did not succeed or a quarantine marked it, it is unloaded exactly when one of the four
      unloading steps hit it, it is ready exactly when its Init succeeded and neither happened. */
  lemma {:induction false} StateTellsHistory(states: seq<State>, events: seq<Event>, n: nat, p: nat)
    requires IsRun(states, events) && n < |states|
    ensures p >= |states[n].all| ==> forall c :: !Happened(states, events, n, p, c)
    ensures p < |states[n].all| ==>
      var state := states[n].all[p].state;
      && (state == StateFailed <==> Happened(states, events, n, p, Broken))
      && (state == StateUnloaded <==> Happened(states, events, n, p, Unloaded))
      && (state == StateReady <==>
            Happened(states, events, n, p, Readied) && !Happened(states, events, n, p, Broken)
              && !Happened(states, events, n, p, Unloaded))
  {
    if n > 0 {
      var s, e, s' := states[n - 1], events[n - 1], states[n];
      assert Next(s, e, s');
      RunKeepsInv(states, events, n - 1);
      StateTellsHistory(states, events, n - 1, p);
      StepGrows(s, e, s');
      hide Next, Inv, Changes, Happened;
      forall c
        ensures Happened(states, events, n, p, c) <==>
          Happened(states, events, n - 1, p, c) || Changes(s, e, p, c)
        ensures Changes(s, e, p, c) ==> p < |s.all|
      {
        HappenedLater(states, events, n - 1, p, c);
        if Changes(s, e, p, c) {
          ChangeIsDue(s, e, p, c);
        }
      }
      if p < |s'.all| {
        StepTellsState(s, e, s', p);
        if Changes(s, e, p, Readied) {
          ChangeIsDue(s, e, p, Readied);
        }
        if Changes(s, e, p, Broken) {
          ChangeIsDue(s, e, p, Broken);
        }
        if Changes(s, e, p, Unloaded) {
          ChangeIsDue(s, e, p, Unloaded);
        }
      }
    }
  }

  lemma StepGrows(s: State, e: Event, s': State)
    requires Next(s, e, s')
    ensures |s.all| <= |s'.all| && Enabled(s, e)
    ensures forall p :: 0 <= p < |s.all| ==> s'.all[p].name == s.all[p].name
  {
  }

  /** And it is registered exactly when its load found its name free and nothing took it out since. */
  lemma {:induction false} RegistryTellsHistory(states: seq<State>, events: seq<Event>, n: nat, p: nat)
    requires IsRun(states, events) && n < |states|
    ensures InRegistry(states[n], p) <==>
      Happened(states, events, n, p, Registered) && !Happened(states, events, n, p, Removed)
    ensures Happened(states, events, n, p, Removed) ==> Gone(states[n], p)
  {
    if n > 0 {
      var s, e, s' := states[n - 1], events[n - 1], states[n];
      assert Next(s, e, s');
      RunKeepsInv(states, events, n - 1);
      RegistryTellsHistory(states, events, n - 1, p);
      hide Next, Inv, Happened, Changes, InRegistry, Gone;
      HappenedLater(states, events, n - 1, p, Registered);
      HappenedLater(states, events, n - 1, p, Removed);
      StepTellsRegistry(s, e, s', p);
      if Gone(s, p) {
        GoneIsNotRegistered(s, e, s', p);
        GoneStays(s, e, s', p);
      } else if Changes(s, e, p, Removed) {
        RemovedIsGone(s, e, s', p);
        ChangeIsDue(s, e, p, Removed);
      }
    }
  }

  lemma GoneIsNotRegistered(s: State, e: Event, s': State, p: nat)
    requires Next(s, e, s') && Gone(s, p)
    ensures !InRegistry(s, p) && !Changes(s, e, p, Registered)
  {
  }

  lemma RemovedIsGone(s: State, e: Event, s': State, p: nat)
    requires Inv(s) && Next(s, e, s') && Changes(s, e, p, Removed)
    ensures Gone(s', p) && !Changes(s, e, p, Registered) && Enabled(s, e)
  {
    var name: string;
    if e.Clear? {
      name :| name in s.registry && s.registry[name] == p;
    } else {
      name := e.name;
    }
    LeavingIsFinal(s, e, s', name);
  }

  /** What is registered was initialised first: a step of the run is its Init, with success. */
  lemma RegisteredWasInitialized(states: seq<State>, events: seq<Event>, n: nat, name: string)
      returns (k: nat, t: nat, out: InitOutcome)
    requires IsRun(states, events) && n < |states| && name in states[n].registry
    ensures k < n && events[k] == Init(t, out) && (out.NoInit? || out.InitOk?)
    ensures t in states[k].threads && states[k].threads[t] == Initializing(states[n].registry[name])
  {
    var p := states[n].registry[name];
    RegisteredAreReady(states, events, n, name);
    StateTellsHistory(states, events, n, p);
    k :| 0 <= k < n && Changes(states[k], events[k], p, Readied);
    t, out := events[k].t, events[k].out;
  }

  /** A plugin whose Init reported an error, panicked or has the wrong type is failed right after it,
      stays failed, and is never registered. */
  lemma FailedInitStaysOut(states: seq<State>, events: seq<Event>, k: nat, n: nat)
    requires IsRun(states, events) && k < n < |states| && events[k].Init?
    requires events[k].out.InitError? || events[k].out.InitPanic? || events[k].out.BadInitType?
    ensures events[k].t in states[k].threads && states[k].threads[events[k].t].Initializing?
    ensures
      var p := states[k].threads[events[k].t].p;
      p < |states[n].all| && states[n].all[p].state == StateFailed && !InRegistry(states[n], p)
  {
    assert Next(states[k], events[k], states[k + 1]);
    var p := states[k].threads[events[k].t].p;
    assert Changes(states[k], events[k], p, Broken);
    StateTellsHistory(states, events, n, p);
    assert Happened(states, events, n, p, Broken);
    RunKeepsInv(states, events, n);
  }

  lemma NextMovesForward(s: State, e: Event, s': State, p: nat)
    requires Inv(s) && Next(s, e, s') && p < |s.all|
    ensures p < |s'.all| && s'.all[p].name == s.all[p].name
    ensures s'.all[p].state != s.all[p].state ==> ValidTransition(s.all[p].state, s'.all[p].state)
  {
    hide Next, Inv, Changes;
    StepGrows(s, e, s');
    StepTellsState(s, e, s', p);
    if Changes(s, e, p, Readied) {
      ChangeIsDue(s, e, p, Readied);
    } else if Changes(s, e, p, Broken) {
      ChangeIsDue(s, e, p, Broken);
    } else if Changes(s, e, p, Unloaded) {
      ChangeIsDue(s, e, p, Unloaded);
    }
  }

  /** A plugin's state only ever moves forward along Loaded, Ready, Failed, Unloaded. */
  lemma {:induction false} LifecycleMovesForward(states: seq<State>, events: seq<Event>, i: nat, n: nat, p: nat)
    requires IsRun(states, events) && i <= n < |states| && p < |states[i].all|
    ensures p < |states[n].all| && states[n].all[p].name == states[i].all[p].name
    ensures Rank(states[i].all[p].state) <= Rank(states[n].all[p].state)
    decreases n
  {
    hide Next, Inv;
    if i < n {
      LifecycleMovesForward(states, events, i, n - 1, p);
      RunKeepsInv(states, events, n - 1);
      NextMovesForward(states[n - 1], events[n - 1], states[n], p);
    }
  }

  /** Once Close has cleared the registry, no load that was still initialising repopulates it. */
  lemma {:induction false} EmptyAfterClose(states: seq<State>, events: seq<Event>, i: nat, n: nat)
    requires IsRun(states, events) && i < n < |states| && events[i].Clear?
    ensures states[n].registry == map[]
    ensures states[n].closed && states[n].cleared
  {
    RunKeepsInv(states, events, n);
    if n == i + 1 {
      assert Next(states[i], events[i], states[n]);
    } else {
      EmptyAfterClose(states, events, i, n - 1);
      assert Next(states[n - 1], events[n - 1], states[n]);
    }
  }

  /** Nobody can register p any more. */
  ghost predicate Gone(s: State, p: nat) {
    && p < |s.all|
    && p !in s.registry.Values
    && forall t :: t in s.threads ==> s.threads[t] != Initializing(p) && s.threads[t] != Initialized(p)
  }

  lemma RegisteredHasNoLoader(s: State, name: string, t: nat)
    requires Inv(s) && name in s.registry && t in s.threads
    ensures !Holds(s.threads[t], s.registry[name])
  {
    assert ThreadOk(s, s.threads[t]);
  }

  lemma LeavingIsFinal(s: State, e: Event, s': State, name: string)
    requires Inv(s) && Next(s, e, s') && name in s.registry
    ensures (name in s'.registry && s'.registry[name] == s.registry[name]) || Gone(s', s.registry[name])
  {
    NextKeepsInv(s, e, s');
    forall t | t in s.threads
      ensures !Holds(s.threads[t], s.registry[name])
    {
      RegisteredHasNoLoader(s, name, t);
    }
  }

  lemma GoneStays(s: State, e: Event, s': State, p: nat)
    requires Next(s, e, s') && Gone(s, p)
    ensures Gone(s', p)
  {
  }

  /** A plugin object that left the registry, by Unload, Quarantine or Close, never comes back:
      a plugin is only ever registered by the load that created it. */
  lemma {:induction false} NeverComesBack(states: seq<State>, events: seq<Event>, i: nat, n: nat, name: string)
    requires IsRun(states, events) && i <= n < |states| && name in states[i].registry
    ensures (name in states[n].registry && states[n].registry[name] == states[i].registry[name])
      || Gone(states[n], states[i].registry[name])
    decreases n
  {
    RunKeepsInv(states, events, i);
    if i < n {
      NeverComesBack(states, events, i, n - 1, name);
      RunKeepsInv(states, events, n - 1);
      if Gone(states[n - 1], states[i].registry[name]) {
        GoneStays(states[n - 1], events[n - 1], states[n], states[i].registry[name]);
      } else {
        LeavingIsFinal(states[n - 1], events[n - 1], states[n], name);
      }
    }
  }

  /** One step after the flag is set: only the load that read it before can register. */
  lemma StepAfterFlag(s: State, e: Event, s': State, name: string)
    requires Inv(s) && Next(s, e, s') && s.closed
    ensures s'.closed && (s'.registering.Some? ==>
      s'.registering == s.registering && s'.threads[s.registering.value] == s.threads[s.registering.value])
    ensures name in s'.registry ==>
      || (name in s.registry && s'.registry[name] == s.registry[name])
      || (s.registering.Some? && e == Register(s.registering.value)
        && s'.registry[name] == s.threads[s.registering.value].p)
  {
    NextKeepsInv(s, e, s');
  }

  /** What the registry can hold after the flag was set: what it held then, and the plugin of
      the one load whose section had read the flag before. */
  lemma {:induction false} RegistryAfterFlag(states: seq<State>, events: seq<Event>, i: nat, n: nat, name: string)
    requires IsRun(states, events) && i <= n < |states| && states[i].closed && name in states[n].registry
    ensures states[n].closed
    ensures
      || (name in states[i].registry && states[n].registry[name] == states[i].registry[name])
      || (states[i].registering.Some? && states[i].registering.value in states[i].threads
          && states[i].threads[states[i].registering.value] == Initialized(states[n].registry[name]))
    decreases n
  {
    RunKeepsInv(states, events, i);
    FlagHolder(states, events, i, n);
    if i < n {
      hide Next, Inv;
      RunKeepsInv(states, events, n - 1);
      FlagHolder(states, events, i, n - 1);
      StepAfterFlag(states[n - 1], events[n - 1], states[n], name);
      if name in states[n - 1].registry && states[n].registry[name] == states[n - 1].registry[name] {
        RegistryAfterFlag(states, events, i, n - 1, name);
      } else {
        HolderInitialized(states[n - 1]);
      }
    }
  }

  lemma HolderInitialized(s: State)
    requires Inv(s) && s.registering.Some?
    ensures s.registering.value in s.threads && s.threads[s.registering.value].Initialized?
  {
  }

  /** No new load gets past the flag; the one that holds the lock keeps its plugin. */
  lemma {:induction false} FlagHolder(states: seq<State>, events: seq<Event>, i: nat, n: nat)
    requires IsRun(states, events) && i <= n < |states| && states[i].closed
    ensures states[n].closed
    ensures states[n].registering.Some? ==>
      var t := states[n].registering.value;
      states[n].registering == states[i].registering && t in states[i].threads && t in states[n].threads
      && states[n].threads[t] == states[i].threads[t]
    decreases n
  {
    RunKeepsInv(states, events, n);
    if i < n {
      FlagHolder(states, events, i, n - 1);
      RunKeepsInv(states, events, n - 1);
      StepAfterFlag(states[n - 1], events[n - 1], states[n], "");
    }
  }

  predicate InRegistry(s: State, p: nat) {
    p in s.registry.Values
  }

  /** Step k is load t's registration, and finds the name of its plugin p free. */
  predicate Enters(states: seq<State>, events: seq<Event>, k: nat, t: nat, p: nat)
    requires k < |events| < |states|
  {
    events[k] == Register(t) && p < |states[k].all| && states[k].all[p].name !in states[k].registry
  }

  lemma EntersRegistry(s: State, e: Event, s': State, t: nat, p: nat)
    requires Inv(s) && Next(s, e, s') && s.closed && (s.registering.Some? ==> s.registering == Some(t))
    requires t in s.threads && s.registering.Some? ==> s.threads[t] == Initialized(p)
    requires !InRegistry(s, p)
    ensures InRegistry(s', p) ==> s.registering.Some? && e == Register(t) && p < |s.all| && s.all[p].name !in s.registry
    ensures e == Register(t) && p < |s.all| && s.all[p].name !in s.registry ==> InRegistry(s', p)
  {
    NextKeepsInv(s, e, s');
    if e == Register(t) && p < |s.all| && s.all[p].name !in s.registry {
      assert s'.registry[s.all[p].name] == p;
    }
  }

  ghost predicate WasRegistered(states: seq<State>, i: nat, n: nat, p: nat)
    requires n < |states|
  {
    exists m :: i <= m <= n && InRegistry(states[m], p)
  }

  ghost predicate HasEntered(states: seq<State>, events: seq<Event>, i: nat, n: nat, t: nat, p: nat)
    requires n <= |events| < |states|
  {
    exists k :: i <= k < n && Enters(states, events, k, t, p)
  }

  lemma RegisteredLater(states: seq<State>, i: nat, n: nat, p: nat)
    requires i <= n && n + 1 < |states|
    ensures WasRegistered(states, i, n + 1, p) <==> WasRegistered(states, i, n, p) || InRegistry(states[n + 1], p)
  {
    hide InRegistry;
    if WasRegistered(states, i, n, p) {
      var m :| i <= m <= n && InRegistry(states[m], p);
      assert i <= m <= n + 1;
    }
  }

  lemma EnteredLater(states: seq<State>, events: seq<Event>, i: nat, n: nat, t: nat, p: nat)
    requires i <= n < |events| < |states|
    ensures HasEntered(states, events, i, n + 1, t, p) <==>
      HasEntered(states, events, i, n, t, p) || Enters(states, events, n, t, p)
  {
    hide Enters;
    if HasEntered(states, events, i, n, t, p) {
      var k :| i <= k < n && Enters(states, events, k, t, p);
      assert i <= k < n + 1;
    }
  }

  /** After the flag is set, the plugin of the load that had read it before is registered at some
      point exactly when that load's registration step runs and finds the name free. */
  lemma {:induction false} LateEntryExactly(states: seq<State>, events: seq<Event>, i: nat, n: nat, t: nat, p: nat)
    requires IsRun(states, events) && i <= n < |states| && states[i].closed && states[i].registering == Some(t)
    requires t in states[i].threads && states[i].threads[t] == Initialized(p)
    ensures WasRegistered(states, i, n, p) <==> HasEntered(states, events, i, n, t, p)
    decreases n
  {
    RunKeepsInv(states, events, i);
    if i == n {
      assert ThreadOk(states[i], states[i].threads[t]);
    } else {
      hide Next, Inv, WasRegistered, HasEntered, InRegistry;
      LateEntryExactly(states, events, i, n - 1, t, p);
      RegisteredLater(states, i, n - 1, p);
      EnteredLater(states, events, i, n - 1, t, p);
      if !WasRegistered(states, i, n - 1, p) {
        LateStep(states, events, i, n - 1, t, p);
      }
    }
  }

  lemma LateStep(states: seq<State>, events: seq<Event>, i: nat, n: nat, t: nat, p: nat)
    requires IsRun(states, events) && i <= n < |events| && states[i].closed && states[i].registering == Some(t)
    requires t in states[i].threads && states[i].threads[t] == Initialized(p)
    requires !WasRegistered(states, i, n, p)
    ensures InRegistry(states[n + 1], p) <==> Enters(states, events, n, t, p)
  {
    hide Next, Inv;
    FlagHolder(states, events, i, n);
    RunKeepsInv(states, events, n);
    EntersRegistry(states[n], events[n], states[n + 1], t, p);
  }

  /** The race is real: a plugin enters the registry after the flag is set, and Close's section
      then clears it. */
  lemma LateRegister() returns (states: seq<State>, events: seq<Event>)
    ensures IsRun(states, events)
    ensures events == [Create(0, "p"), Init(0, NoInit), ReadFlag(0), BeginClose(1), Register(0), Clear(1)]
    ensures states[4].closed && "p" !in states[4].registry && "p" in states[5].registry && states[6].registry == map[]
  {
    var s: State;
    states, events, s := [Start()], [], Start();
    states, events, s := Extend(states, events, s, Create(0, "p"));
    hide IsRun;
    states, events, s := Extend(states, events, s, Init(0, NoInit));
    states, events, s := Extend(states, events, s, ReadFlag(0));
    states, events, s := Extend(states, events, s, BeginClose(1));
    states, events, s := Extend(states, events, s, Register(0));
    states, events, s := Extend(states, events, s, Clear(1));
  }

  /** Two plugins are loaded; one is unloaded by name, the other quarantined by the host. */
  lemma UnloadedAndQuarantined() returns (states: seq<State>, events: seq<Event>, s: State)
    ensures Ends(states, events, s) && s.registry == map[] && |s.all| == 2
    ensures s.all[0].state == StateUnloaded && s.all[1].state == StateFailed
  {
    states, events, s := [Start()], [], Start();
    states, events, s := Loads(states, events, s, 0, "p");
    hide Ends;
    states, events, s := Extend(states, events, s, Unload("p"));
    states, events, s := Loads(states, events, s, 1, "q");
    states, events, s := Extend(states, events, s, Take(2, "q"));
    states, events, s := Extend(states, events, s, MarkFailed(2));
  }

  ghost predicate Ends(states: seq<State>, events: seq<Event>, s: State) {
    IsRun(states, events) && states[|events|] == s
  }

  lemma Extend(states: seq<State>, events: seq<Event>, s: State, e: Event)
      returns (states': seq<State>, events': seq<Event>, s': State)
    requires Ends(states, events, s) && Enabled(s, e)
    ensures s' == Effect(s, e) && Ends(states', events', s')
    ensures states' == states + [s'] && events' == events + [e]
  {
    s' := Effect(s, e);
    states', events' := states + [s'], events + [e];
  }

  /** A load whose Init succeeds, on an open manager where the name is free. */
  lemma Loads(states: seq<State>, events: seq<Event>, s: State, t: nat, name: string)
      returns (states': seq<State>, events': seq<Event>, s': State)
    requires Ends(states, events, s) && t !in s.threads && name !in s.registry && !s.closed && s.registering.None?
    ensures Ends(states', events', s') && !s'.closed && s'.registering.None?
    ensures s'.registry == s.registry[name := |s.all|] && s'.threads == s.threads[t := Finished]
    ensures s'.all == s.all + [Record(name, StateReady, false)]
  {
    hide Ends;
    states', events', s' := Extend(states, events, s, Create(t, name));
    states', events', s' := Extend(states', events', s', Init(t, InitOk));
    states', events', s' := Extend(states', events', s', ReadFlag(t));
    states', events', s' := Extend(states', events', s', Register(t));
  }

  predicate CanMove(s: State, t: nat) {
    Enabled(s, Init(t, InitOk)) || Enabled(s, ReadFlag(t)) || Enabled(s, Register(t)) || Enabled(s, MarkFailed(t))
      || Enabled(s, Clear(t))
  }

  /** No call is stuck: it has a step to take, or waits for the load that holds the lock, which has one. */
  lemma CallNeverStuck(states: seq<State>, events: seq<Event>, n: nat, t: nat)
    requires IsRun(states, events) && n < |states| && t in states[n].threads && !states[n].threads[t].Finished?
    ensures CanMove(states[n], t) || (states[n].registering.Some? && CanMove(states[n], states[n].registering.value))
  {
    var s := states[n];
    RunKeepsInv(states, events, n);
    assert ThreadOk(s, s.threads[t]);
    if s.registering.Some? {
      assert ThreadOk(s, s.threads[s.registering.value]);
    }
  }
}
