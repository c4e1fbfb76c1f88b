/**
 The process-wide plugin handle cache: a concurrent map from content hash to an
 entry whose open function runs at most once. A failed entry is deleted by
 compare-and-delete so that the next get opens again; a panicking open is
 remembered and never repeated.
 */
module HandleCache {
  import opened Wrappers

  type Hash = string

  /** sync.OnceValues: not run, running, or finished with a remembered outcome. */
  datatype Once =
    | Fresh
    | Running(runner: nat)
    | Opened(handle: nat)
    | Failed
    | Panicked

  datatype Entry = Entry(hash: Hash, once: Once)

  datatype Outcome = Handle(handle: nat) | Error | Panic

  function Memo(out: Outcome): Once {
    match out
    case Handle(h) => Opened(h)
    case Error => Failed
    case Panic => Panicked
  }

  class HandleEntry {
    var once: Once

    constructor ()
      ensures once == Fresh
    {
      once := Fresh;
    }

    /** The OnceValues wrapper; `out` is what the open function would do now. */
    method Open(out: Outcome) returns (r: Outcome, ran: bool)
      requires once.Fresh? || Finished(once)
      modifies this
      ensures ran <==> old(once).Fresh?
      ensures Finished(once) && r == OutcomeOf(once)
      ensures once == if ran then Memo(out) else old(once)
    {
      if Finished(once) {
        return OutcomeOf(once), false;
      }
      once := Memo(out);
      return out, true;
    }
  }

  class Cache {
    var entries: map<Hash, HandleEntry>

    /** Between calls only successes and panics are filed. */
    ghost predicate Valid()
      reads this, entries.Values
    {
      forall h :: h in entries ==> entries[h].once.Opened? || entries[h].once.Panicked?
    }

    constructor ()
      ensures Valid() && entries == map[]
    {
      entries := map[];
    }

    /** get without interference: content on file is not opened again, new content is
        opened once, and only a failure leaves nothing behind. */
    method Get(hash: Hash, out: Outcome) returns (r: Outcome, ran: bool)
      requires Valid()
      modifies this, entries.Values
      ensures Valid()
      ensures ran <==> hash !in old(entries)
      ensures r == if ran then out else OutcomeOf(old(entries[hash].once))
      ensures hash in entries <==> !r.Error?
      ensures hash in entries ==> entries[hash].once == Memo(r)
      ensures forall h :: h != hash ==> (h in entries <==> h in old(entries))
      ensures forall h :: h != hash && h in entries ==>
        entries[h] == old(entries)[h] && entries[h].once == old(entries[h].once)
    {
      var entry := new HandleEntry();
      if hash in entries {
        entry := entries[hash];
      } else {
        entries := entries[hash := entry];
      }
      r, ran := entry.Open(out);
      if r.Error? {
        if hash in entries && entries[hash] == entry {
          entries := entries - {hash};
        }
      }
    }
  }

  /** A call of get: LoadOrStore, entry.open(), CompareAndDelete on error. */
  datatype Call =
    | Loaded(entry: nat)
    | Opening(entry: nat)      // runs open itself
    | Deleting(entry: nat)     // got an error, about to compare-and-delete
    | Done(entry: nat, out: Outcome)

  /** opens counts the executions of open per hash. */
  datatype State = State(entries: map<Hash, nat>, all: seq<Entry>, calls: map<nat, Call>, opens: map<Hash, nat>)

  datatype Event =
    | LoadOrStore(c: nat, hash: Hash)
    | EnterOnce(c: nat)
    | Finish(c: nat, out: Outcome)
    | Await(c: nat)
    | CompareAndDelete(c: nat)

  function Init(): State {
    State(map[], [], map[], map[])
  }

  predicate Finished(o: Once) {
    o.Opened? || o.Failed? || o.Panicked?
  }

  function OutcomeOf(o: Once): Outcome
    requires Finished(o)
  {
    match o
    case Opened(h) => Handle(h)
    case Failed => Error
    case _ => Panic
  }

  predicate CallAt(s: State, c: nat) {
    c in s.calls && s.calls[c].entry < |s.all|
  }

  predicate Enabled(s: State, e: Event) {
    match e
    case LoadOrStore(c, _) => c !in s.calls
    case EnterOnce(c) => CallAt(s, c) && s.calls[c].Loaded? && s.all[s.calls[c].entry].once.Fresh?
    case Finish(c, _) => CallAt(s, c) && s.calls[c].Opening?
    case Await(c) => CallAt(s, c) && s.calls[c].Loaded? && Finished(s.all[s.calls[c].entry].once)
    case CompareAndDelete(c) => CallAt(s, c) && s.calls[c].Deleting?
  }

  function SetOnce(s: State, x: nat, o: Once): State
    requires x < |s.all|
  {
    s.(all := s.all[x := s.all[x].(once := o)])
  }

  function Count(opens: map<Hash, nat>, h: Hash): nat {
    if h in opens then opens[h] else 0
  }

  /** What get does with the outcome of entry.open(). */
  function After(x: nat, out: Outcome): Call {
    if out.Error? then Deleting(x) else Done(x, out)
  }

  function Effect(s: State, e: Event): State
    requires Enabled(s, e)
  {
    match e
    case LoadOrStore(c, hash) =>
      if hash in s.entries then s.(calls := s.calls[c := Loaded(s.entries[hash])])
      else s.(entries := s.entries[hash := |s.all|],
              all := s.all + [Entry(hash, Fresh)],
              calls := s.calls[c := Loaded(|s.all|)])
    case EnterOnce(c) =>
      var x := s.calls[c].entry;
      var opens := s.opens[s.all[x].hash := Count(s.opens, s.all[x].hash) + 1];
      SetOnce(s, x, Running(c)).(calls := s.calls[c := Opening(x)], opens := opens)
    case Finish(c, out) =>
      var x := s.calls[c].entry;
      SetOnce(s, x, Memo(out)).(calls := s.calls[c := After(x, out)])
    case Await(c) =>
      var x := s.calls[c].entry;
      s.(calls := s.calls[c := After(x, OutcomeOf(s.all[x].once))])
    case CompareAndDelete(c) =>
      var x := s.calls[c].entry;
      var h := s.all[x].hash;
      var entries := if h in s.entries && s.entries[h] == x then s.entries - {h} else s.entries;
      s.(entries := entries, calls := s.calls[c := Done(x, Error)])
  }

  predicate Next(s: State, e: Event, s': State) {
    Enabled(s, e) && s' == Effect(s, e)
  }

  ghost predicate IsRun(states: seq<State>, events: seq<Event>) {
    && |states| == |events| + 1
    && states[0] == Init()
    && forall i :: 0 <= i < |events| ==> Next(states[i], events[i], states[i + 1])
  }

  /** Entries are filed under their own hash, and only a failed one is ever
      missing from the map. */
  ghost predicate FiledOk(s: State) {
    && (forall h :: h in s.entries ==> s.entries[h] < |s.all| && s.all[s.entries[h]].hash == h)
    && (forall x :: 0 <= x < |s.all| && !s.all[x].once.Failed? ==>
      s.all[x].hash in s.entries && s.entries[s.all[x].hash] == x)
  }

  ghost predicate CallOk(s: State, c: nat, call: Call) {
    && call.entry < |s.all|
    && match call
       case Loaded(_) => true
       case Opening(x) => s.all[x].once == Running(c)
       case Deleting(x) => s.all[x].once.Failed?
       case Done(x, out) => Finished(s.all[x].once) && out == OutcomeOf(s.all[x].once)
                            && (out.Error? ==> s.all[x].hash !in s.entries || s.entries[s.all[x].hash] != x)
  }

  ghost predicate Inv(s: State) {
    && FiledOk(s)
    && (forall c :: c in s.calls ==> CallOk(s, c, s.calls[c]))
  }

  lemma FiledKept(s: State, e: Event, s': State)
    requires Inv(s) && Next(s, e, s')
    ensures FiledOk(s')
  {
    assert e.c in s.calls ==> CallOk(s, e.c, s.calls[e.c]);
  }

  lemma CallKept(s: State, e: Event, s': State, c: nat)
    requires Inv(s) && Next(s, e, s') && c in s'.calls
    ensures CallOk(s', c, s'.calls[c])
  {
    assert c in s.calls ==> CallOk(s, c, s.calls[c]);
    assert e.c in s.calls ==> CallOk(s, e.c, s.calls[e.c]);
  }

  lemma NextKeepsInv(s: State, e: Event, s': State)
    requires Inv(s) && Next(s, e, s')
    ensures Inv(s')
  {
    FiledKept(s, e, s');
    forall c | c in s'.calls
      ensures CallOk(s', c, s'.calls[c])
    {
      CallKept(s, e, s', c);
    }
  }

  lemma {:induction false} RunKeepsInv(states: seq<State>, events: seq<Event>, n: nat)
    requires IsRun(states, events) && n < |states|
    ensures Inv(states[n])
  {
    if n > 0 {
      RunKeepsInv(states, events, n - 1);
      NextKeepsInv(states[n - 1], events[n - 1], states[n]);
    }
  }

  /** For one content hash, executions of open never overlap. */
  lemma OpensNeverOverlap(states: seq<State>, events: seq<Event>, n: nat, c: nat, d: nat)
    requires IsRun(states, events) && n < |states|
    requires c in states[n].calls && d in states[n].calls && states[n].calls[c].Opening? && states[n].calls[d].Opening?
    requires CallAt(states[n], c) && CallAt(states[n], d)
    requires states[n].all[states[n].calls[c].entry].hash == states[n].all[states[n].calls[d].entry].hash
    ensures c == d
  {
    RunKeepsInv(states, events, n);
    assert CallOk(states[n], c, states[n].calls[c]);
    assert CallOk(states[n], d, states[n].calls[d]);
  }

  /** x has settled for good: it succeeded or it panicked. */
  predicate Settled(s: State, x: nat) {
    x < |s.all| && (s.all[x].once.Opened? || s.all[x].once.Panicked?)
  }

  lemma SettledStep(s: State, e: Event, s': State, x: nat)
    requires Inv(s) && Next(s, e, s') && Settled(s, x)
    ensures Settled(s', x) && s'.all[x] == s.all[x]
    ensures Count(s'.opens, s.all[x].hash) == Count(s.opens, s.all[x].hash)
  {
    assert e.c in s.calls ==> CallOk(s, e.c, s.calls[e.c]);
  }

  /** Once an open of a content succeeded or panicked, its entry keeps that
      outcome and open is never executed for that content again. */
  lemma {:induction false} SettledForever(states: seq<State>, events: seq<Event>, i: nat, n: nat, x: nat)
    requires IsRun(states, events) && i <= n < |states| && Settled(states[i], x)
    ensures Settled(states[n], x) && states[n].all[x] == states[i].all[x]
    ensures Count(states[n].opens, states[i].all[x].hash) == Count(states[i].opens, states[i].all[x].hash)
    decreases n - i
  {
    hide Next, Inv;
    if i < n {
      SettledForever(states, events, i, n - 1, x);
      RunKeepsInv(states, events, n - 1);
      SettledStep(states[n - 1], events[n - 1], states[n], x);
    }
  }

  lemma CallKeepsEntry(s: State, e: Event, s': State, c: nat)
    requires Inv(s) && Next(s, e, s') && c in s.calls
    ensures c in s'.calls && s'.calls[c].entry == s.calls[c].entry
  {
  }

  lemma {:induction false} CallEntryFixed(states: seq<State>, events: seq<Event>, i: nat, n: nat, c: nat)
    requires IsRun(states, events) && i <= n < |states| && c in states[i].calls
    ensures c in states[n].calls && states[n].calls[c].entry == states[i].calls[c].entry
    decreases n - i
  {
    hide Next, Inv;
    if i < n {
      CallEntryFixed(states, events, i, n - 1, c);
      RunKeepsInv(states, events, n - 1);
      CallKeepsEntry(states[n - 1], events[n - 1], states[n], c);
    }
  }

  /** Every get of that content that starts later ends, if it ends, with that
      very handle (or that very panic). */
  lemma LaterGetsReuse(states: seq<State>, events: seq<Event>, i: nat, n: nat, x: nat)
    requires IsRun(states, events) && i < n < |states| && i < |events| && Settled(states[i], x)
    requires events[i].LoadOrStore? && events[i].hash == states[i].all[x].hash
    requires events[i].c in states[n].calls && states[n].calls[events[i].c].Done?
    ensures states[n].calls[events[i].c].out == OutcomeOf(states[i].all[x].once)
  {
    RunKeepsInv(states, events, i);
    RunKeepsInv(states, events, n);
    SettledForever(states, events, i, n, x);
    assert states[i + 1].calls[events[i].c] == Loaded(x);
    CallEntryFixed(states, events, i + 1, n, events[i].c);
    assert CallOk(states[n], events[i].c, states[n].calls[events[i].c]);
  }

  lemma UnfiledStep(s: State, e: Event, s': State, x: nat)
    requires Inv(s) && Next(s, e, s') && x < |s.all| && s.all[x].once.Failed?
    requires s.all[x].hash !in s.entries || s.entries[s.all[x].hash] != x
    ensures x < |s'.all| && s'.all[x] == s.all[x]
    ensures s'.all[x].hash !in s'.entries || s'.entries[s'.all[x].hash] != x
  {
    assert e.c in s.calls ==> CallOk(s, e.c, s.calls[e.c]);
  }

  lemma {:induction false} UnfiledForever(states: seq<State>, events: seq<Event>, i: nat, n: nat, x: nat)
    requires IsRun(states, events) && i <= n < |states|
    requires x < |states[i].all| && states[i].all[x].once.Failed?
    requires states[i].all[x].hash !in states[i].entries || states[i].entries[states[i].all[x].hash] != x
    ensures x < |states[n].all| && states[n].all[x] == states[i].all[x]
    ensures states[i].all[x].hash !in states[n].entries || states[n].entries[states[i].all[x].hash] != x
    decreases n - i
  {
    hide Next, Inv;
    if i < n {
      UnfiledForever(states, events, i, n - 1, x);
      RunKeepsInv(states, events, n - 1);
      UnfiledStep(states[n - 1], events[n - 1], states[n], x);
    }
  }

  /** A failure is retried: once a get has returned an error, no get that starts
      afterwards is handed the entry that failed. */
  lemma FailureIsRetried(states: seq<State>, events: seq<Event>, i: nat, n: nat, c: nat)
    requires IsRun(states, events) && i <= n < |events|
    requires c in states[i].calls && states[i].calls[c].Done? && states[i].calls[c].out.Error?
    requires events[n].LoadOrStore?
    ensures events[n].c in states[n + 1].calls && states[n + 1].calls[events[n].c].Loaded?
    ensures states[n + 1].calls[events[n].c].entry != states[i].calls[c].entry
  {
    RunKeepsInv(states, events, i);
    RunKeepsInv(states, events, n);
    var x := states[i].calls[c].entry;
    assert CallOk(states[i], c, states[i].calls[c]);
    UnfiledForever(states, events, i, n, x);
  }

  /** A compare-and-delete removes at most the caller's own failed entry. */
  lemma DeletesOnlyOwn(states: seq<State>, events: seq<Event>, n: nat, h: Hash)
    requires IsRun(states, events) && n < |events| && events[n].CompareAndDelete?
    requires h in states[n].entries && h !in states[n + 1].entries
    ensures CallAt(states[n], events[n].c)
    ensures states[n].entries[h] == states[n].calls[events[n].c].entry
    ensures states[n].all[states[n].entries[h]].once.Failed?
  {
    RunKeepsInv(states, events, n);
    assert CallOk(states[n], events[n].c, states[n].calls[events[n].c]);
  }

  // What a get returns

  /** Step k ends an execution of open for entry x with `out`. */
  predicate Opens(s: State, e: Event, x: nat, out: Outcome) {
    e.Finish? && e.out == out && e.c in s.calls && s.calls[e.c] == Opening(x)
  }

  ghost predicate WasOpened(states: seq<State>, events: seq<Event>, n: nat, x: nat, out: Outcome)
    requires n <= |events| < |states|
  {
    exists k :: 0 <= k < n && Opens(states[k], events[k], x, out)
  }

  lemma StepFinishes(s: State, e: Event, s': State, x: nat)
    requires Inv(s) && Next(s, e, s') && x < |s'.all| && Finished(s'.all[x].once)
    ensures (x < |s.all| && s'.all[x].once == s.all[x].once) || Opens(s, e, x, OutcomeOf(s'.all[x].once))
  {
  }

  lemma {:induction false} FinishedWasOpened(states: seq<State>, events: seq<Event>, n: nat, x: nat)
    requires IsRun(states, events) && n < |states| && x < |states[n].all| && Finished(states[n].all[x].once)
    ensures WasOpened(states, events, n, x, OutcomeOf(states[n].all[x].once))
  {
    RunKeepsInv(states, events, n - 1);
    hide Next, Inv, Opens;
    StepFinishes(states[n - 1], events[n - 1], states[n], x);
    var out := OutcomeOf(states[n].all[x].once);
    if !Opens(states[n - 1], events[n - 1], x, out) {
      FinishedWasOpened(states, events, n - 1, x);
      var k :| 0 <= k < n - 1 && Opens(states[k], events[k], x, out);
      assert 0 <= k < n;
    }
  }

  /** Call c asked for the content of its entry. */
  ghost predicate AskedFor(events: seq<Event>, n: nat, c: nat, hash: Hash)
    requires n <= |events|
  {
    LoadOrStore(c, hash) in events[..n]
  }

  lemma StepAsks(s: State, e: Event, s': State, c: nat)
    requires Inv(s) && Next(s, e, s') && c in s'.calls
    ensures s'.calls[c].entry < |s'.all|
    ensures
      var hash := s'.all[s'.calls[c].entry].hash;
      e == LoadOrStore(c, hash) || (CallAt(s, c) && s.all[s.calls[c].entry].hash == hash)
  {
    assert c in s.calls ==> CallOk(s, c, s.calls[c]);
  }

  lemma {:induction false} CallAskedFor(states: seq<State>, events: seq<Event>, n: nat, c: nat)
    requires IsRun(states, events) && n < |states| && c in states[n].calls
    ensures states[n].calls[c].entry < |states[n].all|
    ensures AskedFor(events, n, c, states[n].all[states[n].calls[c].entry].hash)
  {
    RunKeepsInv(states, events, n - 1);
    assert events[..n] == events[..n - 1] + [events[n - 1]];
    hide Next, Inv;
    StepAsks(states[n - 1], events[n - 1], states[n], c);
    if CallAt(states[n - 1], c) {
      CallAskedFor(states, events, n - 1, c);
    }
  }

  /** A get returns what open returned, in some execution for the content the get asked for: its
      own or that of the call it waited for. */
  lemma GetReturnsOpened(states: seq<State>, events: seq<Event>, n: nat, c: nat)
    requires IsRun(states, events) && n < |states| && c in states[n].calls && states[n].calls[c].Done?
    ensures states[n].calls[c].entry < |states[n].all|
    ensures AskedFor(events, n, c, states[n].all[states[n].calls[c].entry].hash)
    ensures WasOpened(states, events, n, states[n].calls[c].entry, states[n].calls[c].out)
  {
    RunKeepsInv(states, events, n);
    assert CallOk(states[n], c, states[n].calls[c]);
    CallAskedFor(states, events, n, c);
    FinishedWasOpened(states, events, n, states[n].calls[c].entry);
  }

  /** For every content and handle: a get opens it, and the next get is served with the handle. */
  lemma OpenedThenReused(hash: Hash, handle: nat) returns (states: seq<State>, events: seq<Event>)
    ensures IsRun(states, events)
    ensures events ==
      [LoadOrStore(0, hash), EnterOnce(0), Finish(0, Handle(handle)), LoadOrStore(1, hash), Await(1)]
    ensures 0 in states[3].calls && states[3].calls[0] == Done(0, Handle(handle))
    ensures 1 in states[5].calls && states[5].calls[1] == Done(0, Handle(handle))
    ensures Count(states[5].opens, hash) == 1
  {
    events := [LoadOrStore(0, hash), EnterOnce(0), Finish(0, Handle(handle)), LoadOrStore(1, hash), Await(1)];
    var s1 := Effect(Init(), events[0]);
    var s2 := Effect(s1, events[1]);
    var s3 := Effect(s2, events[2]);
    var s4 := Effect(s3, events[3]);
    states := [Init(), s1, s2, s3, s4, Effect(s4, events[4])];
  }

  lemma Extend(states: seq<State>, events: seq<Event>, e: Event) returns (states': seq<State>, events': seq<Event>)
    requires |states| == |events| + 1 && IsRun(states, events) && Enabled(states[|events|], e)
    ensures IsRun(states', events')
    ensures states' == states + [Effect(states[|events|], e)] && events' == events + [e]
  {
    states', events' := states + [Effect(states[|events|], e)], events + [e];
  }

  /** After a failure the next get opens again, with a fresh entry, and may succeed. */
  lemma FailedThenOpened(hash: Hash, handle: nat) returns (states: seq<State>, events: seq<Event>)
    ensures IsRun(states, events)
    ensures events == [LoadOrStore(0, hash), EnterOnce(0), Finish(0, Error), CompareAndDelete(0), LoadOrStore(1, hash),
                       EnterOnce(1), Finish(1, Handle(handle))]
    ensures 0 in states[4].calls && states[4].calls[0] == Done(0, Error)
    ensures 1 in states[7].calls && states[7].calls[1] == Done(1, Handle(handle))
  {
    states, events := [Init()], [];
    states, events := Extend(states, events, LoadOrStore(0, hash));
    hide IsRun;
    states, events := Extend(states, events, EnterOnce(0));
    states, events := Extend(states, events, Finish(0, Error));
    states, events := Extend(states, events, CompareAndDelete(0));
    states, events := Extend(states, events, LoadOrStore(1, hash));
    states, events := Extend(states, events, EnterOnce(1));
    states, events := Extend(states, events, Finish(1, Handle(handle)));
  }

  // No get is stuck

  lemma {:induction false} RunnerIsOpening(states: seq<State>, events: seq<Event>, n: nat, x: nat)
    requires IsRun(states, events) && n < |states| && x < |states[n].all| && states[n].all[x].once.Running?
    ensures states[n].all[x].once.runner in states[n].calls
    ensures states[n].calls[states[n].all[x].once.runner] == Opening(x)
  {
    RunKeepsInv(states, events, n - 1);
    hide Next, Inv;
    if x < |states[n - 1].all| && states[n - 1].all[x].once.Running? {
      RunnerIsOpening(states, events, n - 1, x);
    }
    StepRuns(states[n - 1], events[n - 1], states[n], x);
  }

  lemma StepRuns(s: State, e: Event, s': State, x: nat)
    requires Inv(s) && Next(s, e, s') && x < |s'.all| && s'.all[x].once.Running?
    requires x < |s.all| && s.all[x].once.Running? ==>
      s.all[x].once.runner in s.calls && s.calls[s.all[x].once.runner] == Opening(x)
    ensures s'.all[x].once.runner in s'.calls && s'.calls[s'.all[x].once.runner] == Opening(x)
  {
    assert e.c in s.calls ==> CallOk(s, e.c, s.calls[e.c]);
  }

  predicate CanMove(s: State, c: nat) {
    Enabled(s, EnterOnce(c)) || Enabled(s, Await(c)) || Enabled(s, CompareAndDelete(c)) || Enabled(s, Finish(c, Error))
  }

  /** A get that has not returned has a step to take, or waits for the call that runs open for its
      entry, and that call has one. */
  lemma GetNeverStuck(states: seq<State>, events: seq<Event>, n: nat, c: nat)
    requires IsRun(states, events) && n < |states| && c in states[n].calls && !states[n].calls[c].Done?
    ensures
      || CanMove(states[n], c)
      || exists d :: d in states[n].calls && states[n].calls[d] == Opening(states[n].calls[c].entry)
           && CanMove(states[n], d)
  {
    var s := states[n];
    RunKeepsInv(states, events, n);
    assert CallOk(s, c, s.calls[c]);
    var x := s.calls[c].entry;
    if s.calls[c].Loaded? && s.all[x].once.Running? {
      RunnerIsOpening(states, events, n, x);
      var d := s.all[x].once.runner;
      assert d in s.calls && s.calls[d] == Opening(x) && CanMove(s, d);
    }
  }
}
