/**
 The policy manager's lock-free reload against concurrent evaluations that fill
 a decision cache. A reload publishes two atomics one after the other, the
 prepared query and then the revision, and finally purges the cache.
 */
module DecisionCache {
  import opened FlightKey
  import opened Wrappers

  /** The hash input behind a cache key: 8-byte big-endian length of the
      revision, the revision, the JSON encoding of the input. */
  function BigEndian(n: nat, width: nat): (b: Bytes)
    ensures |b| == width
  {
    if width == 0 then [] else BigEndian(n / 256, width - 1) + [n % 256]
  }

  function Base256(b: Bytes): nat {
    if b == [] then 0 else 256 * Base256(b[..|b| - 1]) + b[|b| - 1]
  }

  function Power256(width: nat): nat {
    if width == 0 then 1 else 256 * Power256(width - 1)
  }

  lemma {:induction false} BigEndianInverts(n: nat, width: nat)
    requires n < Power256(width)
    ensures Base256(BigEndian(n, width)) == n
  {
    if width > 0 {
      BigEndianInverts(n / 256, width - 1);
      var b := BigEndian(n, width);
      assert b[..width - 1] == BigEndian(n / 256, width - 1);
    }
  }

  function Preimage(revision: Bytes, encoded: Bytes): Bytes {
    BigEndian(|revision|, 8) + revision + encoded
  }

  /** Distinct (revision, input encoding) pairs are hashed from distinct bytes. */
  lemma PreimageInjective(r: Bytes, e: Bytes, r': Bytes, e': Bytes)
    requires |r| < Power256(8) && |r'| < Power256(8)
    requires Preimage(r, e) == Preimage(r', e')
    ensures r == r' && e == e'
  {
    var p, p' := Preimage(r, e), Preimage(r', e');
    assert p[..8] == BigEndian(|r|, 8) && p'[..8] == BigEndian(|r'|, 8);
    BigEndianInverts(|r|, 8);
    BigEndianInverts(|r'|, 8);
    assert p[8..8 + |r|] == r && p'[8..8 + |r'|] == r';
    assert p[8 + |r|..] == e && p'[8 + |r'|..] == e';
  }

  type Revision = string

  type Input = string

  /** Keys are (revision, input): PreimageInjective and an injective hash. */
  datatype Key = Key(revision: Revision, input: Input)

  /** A fetched bundle: its revision and what its query answers, None on an evaluation error. */
  datatype Bundle = Bundle(revision: Revision, eval: Input -> Option<string>)

  datatype EvalError = PoliciesNotLoaded | EvaluationFailed

  datatype ReloadOutcome = FetchError | Unchanged | PrepareError | Reloaded

  /** The manager's fields, without interference between reloads and evaluations. */
  class Manager {
    var preparedEval: Option<Bundle>
    var revision: Revision // "" until policies are loaded
    var cache: Option<map<Key, string>>

    /** What is filed under the current revision is what the current query answers. */
    ghost predicate Valid()
      reads this
    {
      && (preparedEval.Some? ==> preparedEval.value.revision == revision)
      && (cache.Some? ==> forall k :: k in cache.value && k.revision == revision ==>
            preparedEval.Some? && preparedEval.value.eval(k.input) == Some(cache.value[k]))
    }

    constructor (caching: bool)
      ensures Valid() && preparedEval.None? && revision == "" && cache == if caching then Some(map[]) else None
    {
      preparedEval, revision, cache := None, "", if caching then Some(map[]) else None;
    }

    /** `fetched` is the source's answer, `prepares` whether its modules compile. */
    method Reload(fetched: Option<Bundle>, prepares: bool) returns (out: ReloadOutcome)
      requires Valid()
      modifies this
      ensures Valid() && cache.Some? == old(cache).Some?
      ensures out.Reloaded? <==> fetched.Some? && fetched.value.revision != old(revision) && prepares
      ensures out.FetchError? <==> fetched.None?
      ensures out.Unchanged? <==> fetched.Some? && fetched.value.revision == old(revision)
      ensures out.Reloaded? ==> preparedEval == fetched && revision == fetched.value.revision
      ensures out.Reloaded? && cache.Some? ==> cache.value == map[]
      ensures !out.Reloaded? ==> unchanged(this)
    {
      if fetched.None? {
        return FetchError;
      }
      if fetched.value.revision == revision {
        return Unchanged;
      }
      if !prepares {
        return PrepareError;
      }
      preparedEval := fetched;
      revision := fetched.value.revision;
      if cache.Some? {
        cache := Some(map[]);
      }
      return Reloaded;
    }

    /** `keyed` says that the input has a stable JSON encoding. With or without the cache
        the decision is the one the loaded policies give. */
    method Evaluate(input: Input, keyed: bool) returns (r: Result<string, EvalError>)
      requires Valid()
      modifies this`cache
      ensures Valid()
      ensures r == if preparedEval.None? then Err(PoliciesNotLoaded)
                   else match preparedEval.value.eval(input)
                     case None => Err(EvaluationFailed)
                     case Some(d) => Ok(d)
      ensures cache == if old(cache).Some? && keyed && r.Ok?
                       then Some(old(cache).value[Key(revision, input) := r.value]) else old(cache)
    {
      var before := revision;
      var key := if cache.Some? && keyed then Some(Key(before, input)) else None;
      if key.Some? && key.value in cache.value {
        assert cache.value == cache.value[key.value := cache.value[key.value]];
        return Ok(cache.value[key.value]);
      }
      if preparedEval.None? {
        return Err(PoliciesNotLoaded);
      }
      var answer := preparedEval.value.eval(input);
      if answer.None? {
        return Err(EvaluationFailed);
      }
      if key.Some? && revision == before {
        cache := Some(cache.value[key.value := answer.value]);
      }
      return Ok(answer.value);
    }
  }

  /** A decision together with its history: the bundle it was computed from. */
  datatype Decision = Decision(bundle: nat, input: Input)

  /** The load of the prepared query: the bundle it was prepared from, the bundle
      whose revision was published at that moment, and the step. */
  datatype Load = Load(bundle: nat, published: nat, step: nat)

  /** An entry with its history: the bundle published when the evaluation read the
      revision, its load of the query, and the bundle published when it re-read the
      revision before storing. */
  datatype Entry = Entry(decision: Decision, readAt: nat, load: Load, checkedAt: nat)

  datatype Publication = Idle | HalfPublished | Unpurged

  datatype Phase =
    | Keyed
    | Missed
    | Loaded(load: Load)
    | Storing(load: Load, checkedAt: nat)
    | Returned(decision: Decision)
    | Failed

  /** `began` is the bundle whose revision the evaluation read first. */
  datatype Evaluation = Evaluation(input: Input, began: nat, phase: Phase)

  /** `revisions` lists every bundle ever installed, oldest first; prepared and
      published index into it. No branch compares the indices themselves. `step`
      counts the events so far. */
  datatype State = State(
    step: nat,
    revisions: seq<Revision>,
    prepared: nat,
    published: nat,
    reload: Publication,
    cache: map<Key, Entry>,
    evaluations: map<nat, Evaluation>)

  datatype Event =
    | StorePrepared(revision: Revision)
    | StoreRevision
    | Purge
    | Evict(key: Key)
    | Begin(e: nat, input: Input)
    | Lookup(e: nat)
    | LoadQuery(e: nat)
    | EvalFails(e: nat)
    | Check(e: nat)
    | Put(e: nat)

  function Init(revision: Revision): State {
    State(0, [revision], 0, 0, Idle, map[], map[])
  }

  predicate WellIndexed(s: State) {
    && s.published < |s.revisions| && s.prepared < |s.revisions|
    && forall e :: e in s.evaluations ==> s.evaluations[e].began < |s.revisions|
  }

  predicate At(s: State, e: nat) {
    e in s.evaluations
  }

  function KeyOf(s: State, e: nat): Key
    requires WellIndexed(s) && At(s, e)
  {
    Key(s.revisions[s.evaluations[e].began], s.evaluations[e].input)
  }

  predicate Enabled(s: State, ev: Event) {
    WellIndexed(s) &&
    match ev
    case StorePrepared(revision) => s.reload.Idle? && revision != s.revisions[s.published]
    case StoreRevision => s.reload.HalfPublished?
    case Purge => s.reload.Unpurged?
    case Evict(_) => true
    case Begin(e, _) => e !in s.evaluations
    case Lookup(e) => At(s, e) && s.evaluations[e].phase.Keyed?
    case LoadQuery(e) => At(s, e) && s.evaluations[e].phase.Missed?
    case EvalFails(e) => At(s, e) && s.evaluations[e].phase.Loaded?
    case Check(e) => At(s, e) && s.evaluations[e].phase.Loaded?
    case Put(e) => At(s, e) && s.evaluations[e].phase.Storing?
  }

  function SetPhase(s: State, e: nat, p: Phase): State
    requires At(s, e)
  {
    s.(evaluations := s.evaluations[e := s.evaluations[e].(phase := p)])
  }

  function Change(s: State, ev: Event): State
    requires Enabled(s, ev)
  {
    match ev
    case StorePrepared(revision) =>
      s.(revisions := s.revisions + [revision], prepared := |s.revisions|, reload := HalfPublished)
    case StoreRevision => s.(published := s.prepared, reload := Unpurged)
    case Purge => s.(cache := map[], reload := Idle)
    case Evict(key) => s.(cache := s.cache - {key})
    case Begin(e, input) => s.(evaluations := s.evaluations[e := Evaluation(input, s.published, Keyed)])
    case Lookup(e) =>
      var key := KeyOf(s, e);
      SetPhase(s, e, if key in s.cache then Returned(s.cache[key].decision) else Missed)
    case LoadQuery(e) => SetPhase(s, e, Loaded(Load(s.prepared, s.published, s.step)))
    case EvalFails(e) => SetPhase(s, e, Failed)
    case Check(e) =>
      var ev := s.evaluations[e];
      if s.revisions[s.published] == s.revisions[ev.began] then SetPhase(s, e, Storing(ev.phase.load, s.published))
      else SetPhase(s, e, Returned(Decision(ev.phase.load.bundle, ev.input)))
    case Put(e) =>
      var ev := s.evaluations[e];
      var d := Decision(ev.phase.load.bundle, ev.input);
      var entry := Entry(d, ev.began, ev.phase.load, ev.phase.checkedAt);
      SetPhase(s.(cache := s.cache[KeyOf(s, e) := entry]), e, Returned(d))
  }

  function Effect(s: State, ev: Event): State
    requires Enabled(s, ev)
  {
    Change(s, ev).(step := s.step + 1)
  }

  predicate Next(s: State, ev: Event, s': State) {
    Enabled(s, ev) && s' == Effect(s, ev)
  }

  ghost predicate IsRun(states: seq<State>, events: seq<Event>) {
    && |states| == |events| + 1
    && (exists r :: states[0] == Init(r))
    && forall i :: 0 <= i < |events| ==> Next(states[i], events[i], states[i + 1])
  }

  ghost predicate EntryOk(revisions: seq<Revision>, key: Key, x: Entry) {
    && x.readAt <= x.load.published <= x.checkedAt < |revisions|
    && revisions[x.readAt] == key.revision == revisions[x.checkedAt]
    && x.load.published <= x.load.bundle <= x.load.published + 1
    && x.load.bundle < |revisions|
    && x.decision == Decision(x.load.bundle, key.input)
  }

  /** Where a returned decision came from: a fresh evaluation, or an entry. */
  ghost predicate DecisionOk(revisions: seq<Revision>, ev: Evaluation, d: Decision)
    requires ev.began < |revisions|
  {
    && d.input == ev.input
    && d.bundle < |revisions|
    && (ev.began <= d.bundle
        || exists x :: EntryOk(revisions, Key(revisions[ev.began], ev.input), x) && x.decision == d)
  }

  ghost predicate EvaluationOk(s: State, ev: Evaluation) {
    && ev.began <= s.published < |s.revisions|
    && match ev.phase
       case Keyed => true
       case Missed => true
       case Loaded(l) =>
         ev.began <= l.published <= s.published && l.published <= l.bundle <= l.published + 1
           && l.bundle < |s.revisions|
       case Storing(l, w) =>
         && ev.began <= l.published <= w <= s.published && s.revisions[w] == s.revisions[ev.began]
         && l.published <= l.bundle <= l.published + 1 && l.bundle < |s.revisions|
       case Returned(d) => DecisionOk(s.revisions, ev, d)
       case Failed => true
  }

  ghost predicate Inv(s: State) {
    && s.prepared == |s.revisions| - 1
    && s.published == (if s.reload.HalfPublished? then s.prepared - 1 else s.prepared)
    && (forall k :: k in s.cache ==> EntryOk(s.revisions, k, s.cache[k]))
    && (forall e :: e in s.evaluations ==> EvaluationOk(s, s.evaluations[e]))
  }

  lemma EntryOutlasts(revisions: seq<Revision>, r: Revision, key: Key, x: Entry)
    requires EntryOk(revisions, key, x)
    ensures EntryOk(revisions + [r], key, x)
  {
  }

  lemma PrepareKeepsInv(s: State, revision: Revision, s': State)
    requires Inv(s) && Next(s, StorePrepared(revision), s')
    ensures Inv(s')
  {
    forall e | e in s'.evaluations
      ensures EvaluationOk(s', s'.evaluations[e])
    {
      var ev := s.evaluations[e];
      assert EvaluationOk(s, ev);
      if ev.phase.Returned? && !(ev.began <= ev.phase.decision.bundle) {
        var x :| EntryOk(s.revisions, Key(s.revisions[ev.began], ev.input), x) && x.decision == ev.phase.decision;
        EntryOutlasts(s.revisions, revision, Key(s.revisions[ev.began], ev.input), x);
      }
    }
  }

  lemma EvaluationMoves(s: State, e: nat, p: Phase, s': State)
    requires Inv(s) && At(s, e)
    requires EvaluationOk(s, s.evaluations[e].(phase := p))
    requires s' == SetPhase(s, e, p).(step := s'.step)
    ensures Inv(s')
  {
    forall f | f in s'.evaluations
      ensures EvaluationOk(s', s'.evaluations[f])
    {
      if f != e {
        assert EvaluationOk(s, s.evaluations[f]);
      }
    }
  }

  lemma CacheChanges(s: State, c: map<Key, Entry>, step: nat)
    requires Inv(s) && forall k :: k in c ==> EntryOk(s.revisions, k, c[k])
    ensures Inv(s.(cache := c, step := step))
  {
    forall e | e in s.evaluations
      ensures EvaluationOk(s.(cache := c, step := step), s.evaluations[e])
    {
      assert EvaluationOk(s, s.evaluations[e]);
    }
  }

  /** Publishing and purging touch neither evaluations nor revisions. */
  lemma ReloadKeepsInv(s: State, ev: Event, s': State)
    requires Inv(s) && Next(s, ev, s') && (ev.StoreRevision? || ev.Purge?)
    ensures Inv(s')
  {
    forall e | e in s'.evaluations
      ensures EvaluationOk(s', s'.evaluations[e])
    {
      assert EvaluationOk(s, s.evaluations[e]);
    }
  }

  lemma BeginKeepsInv(s: State, e: nat, input: Input, s': State)
    requires Inv(s) && Next(s, Begin(e, input), s')
    ensures Inv(s')
  {
    forall f | f in s'.evaluations
      ensures EvaluationOk(s', s'.evaluations[f])
    {
      if f != e {
        assert EvaluationOk(s, s.evaluations[f]);
      }
    }
  }

  lemma LookupKeepsInv(s: State, e: nat, s': State)
    requires Inv(s) && Next(s, Lookup(e), s')
    ensures Inv(s')
  {
    assert EvaluationOk(s, s.evaluations[e]);
    EvaluationMoves(s, e, s'.evaluations[e].phase, s');
  }

  lemma CheckKeepsInv(s: State, e: nat, s': State)
    requires Inv(s) && Next(s, Check(e), s')
    ensures Inv(s')
  {
    assert EvaluationOk(s, s.evaluations[e]);
    EvaluationMoves(s, e, s'.evaluations[e].phase, s');
  }

  lemma PutKeepsInv(s: State, e: nat, s': State)
    requires Inv(s) && Next(s, Put(e), s')
    ensures Inv(s')
  {
    assert EvaluationOk(s, s.evaluations[e]);
    CacheChanges(s, s'.cache, s.step);
    EvaluationMoves(s.(cache := s'.cache), e, s'.evaluations[e].phase, s');
  }

  lemma NextKeepsInv(s: State, ev: Event, s': State)
    requires Inv(s) && Next(s, ev, s')
    ensures Inv(s')
  {
    match ev {
      case StorePrepared(revision) => PrepareKeepsInv(s, revision, s');
      case StoreRevision => ReloadKeepsInv(s, ev, s');
      case Purge => ReloadKeepsInv(s, ev, s');
      case Evict(key) => CacheChanges(s, s.cache - {key}, s'.step);
      case Begin(e, input) => BeginKeepsInv(s, e, input, s');
      case Lookup(e) => LookupKeepsInv(s, e, s');
      case LoadQuery(e) =>
        assert EvaluationOk(s, s.evaluations[e]);
        EvaluationMoves(s, e, s'.evaluations[e].phase, s');
      case EvalFails(e) =>
        assert EvaluationOk(s, s.evaluations[e]);
        EvaluationMoves(s, e, Failed, s');
      case Check(e) => CheckKeepsInv(s, e, s');
      case Put(e) => PutKeepsInv(s, e, s');
    }
  }

  lemma {:induction false} RunKeepsInv(states: seq<State>, events: seq<Event>, n: nat)
    requires IsRun(states, events) && n < |states|
    ensures Inv(states[n])
  {
    if n > 0 {
      RunKeepsInv(states, events, n - 1);
      NextKeepsInv(states[n - 1], events[n - 1], states[n]);
    }
  }

  predicate NoRepeats(revisions: seq<Revision>) {
    forall i, j :: 0 <= i < j < |revisions| ==> revisions[i] != revisions[j]
  }

  /** In every run, revisions repeating or not, an entry cached under a revision
      was computed from a bundle no older than one with that revision, and at
      most the successor of a bundle with that revision. */
  lemma EntryRange(states: seq<State>, events: seq<Event>, n: nat, key: Key)
    requires IsRun(states, events) && n < |states| && key in states[n].cache
    ensures EntryOk(states[n].revisions, key, states[n].cache[key])
  {
    RunKeepsInv(states, events, n);
  }

  /** The recorded load happened: it is the LoadQuery event of that step, and saw these bundles. */
  ghost predicate LoadOk(states: seq<State>, events: seq<Event>, n: nat, l: Load)
    requires n < |states| && |states| == |events| + 1
  {
    && l.step < n && events[l.step].LoadQuery?
    && states[l.step].prepared == l.bundle && states[l.step].published == l.published
  }

  predicate HasLoaded(phase: Phase) {
    phase.Loaded? || phase.Storing?
  }

  ghost predicate LoadsOk(states: seq<State>, events: seq<Event>, n: nat)
    requires n < |states| && |states| == |events| + 1
  {
    && (forall k :: k in states[n].cache ==> LoadOk(states, events, n, states[n].cache[k].load))
    && (forall e :: e in states[n].evaluations && HasLoaded(states[n].evaluations[e].phase) ==>
          LoadOk(states, events, n, states[n].evaluations[e].phase.load))
  }

  lemma {:induction false} RunKeepsLoads(states: seq<State>, events: seq<Event>, n: nat)
    requires IsRun(states, events) && n < |states|
    ensures states[n].step == n && LoadsOk(states, events, n)
  {
    if n > 0 {
      RunKeepsLoads(states, events, n - 1);
      assert Next(states[n - 1], events[n - 1], states[n]);
    }
  }

  /** When no revision is installed twice, the bundle behind an entry is exactly known: the
      one bundle with the key's revision if the query was loaded outside the window between a
      reload's two stores, and that bundle's immediate successor if it was loaded inside. */
  lemma EntryNeverOlder(states: seq<State>, events: seq<Event>, n: nat, key: Key, b: nat)
    requires IsRun(states, events) && n < |states| && key in states[n].cache
    requires NoRepeats(states[n].revisions)
    requires b < |states[n].revisions| && states[n].revisions[b] == key.revision
    ensures
      var x := states[n].cache[key];
      && x.load.step < n && events[x.load.step].LoadQuery?
      && (x.decision.bundle == b <==> !states[x.load.step].reload.HalfPublished?)
      && (x.decision.bundle == b + 1 <==> states[x.load.step].reload.HalfPublished?)
      && x.decision.input == key.input
  {
    RunKeepsInv(states, events, n);
    RunKeepsLoads(states, events, n);
    RunKeepsInv(states, events, states[n].cache[key].load.step);
  }

  /** And then every evaluation, cached or not, answers from a bundle at least
      as new as the one published when it began. */
  lemma DecisionNeverOlder(states: seq<State>, events: seq<Event>, n: nat, e: nat)
    requires IsRun(states, events) && n < |states| && e in states[n].evaluations
    requires states[n].evaluations[e].phase.Returned? && NoRepeats(states[n].revisions)
    ensures states[n].evaluations[e].phase.decision.bundle >= states[n].evaluations[e].began
    ensures states[n].evaluations[e].phase.decision.input == states[n].evaluations[e].input
  {
    RunKeepsInv(states, events, n);
    assert EvaluationOk(states[n], states[n].evaluations[e]);
  }

  /** Only a revision installed twice lets an evaluation see an older bundle. */
  lemma StaleNeedsRepeat(states: seq<State>, events: seq<Event>, n: nat, e: nat)
    requires IsRun(states, events) && n < |states| && e in states[n].evaluations
    requires states[n].evaluations[e].phase.Returned?
    requires states[n].evaluations[e].phase.decision.bundle < states[n].evaluations[e].began
    ensures
      var ev, revisions := states[n].evaluations[e], states[n].revisions;
      exists i :: 0 <= i <= ev.phase.decision.bundle < ev.began < |revisions| && revisions[i] == revisions[ev.began]
  {
    RunKeepsInv(states, events, n);
    var ev := states[n].evaluations[e];
    assert EvaluationOk(states[n], ev);
    var x :| EntryOk(states[n].revisions, Key(states[n].revisions[ev.began], ev.input), x)
      && x.decision == ev.phase.decision;
    assert states[n].revisions[x.readAt] == states[n].revisions[ev.began];
  }

  // Evaluations and cache, read off the run

  /** An evaluation keeps its input and the revision that was published when it began. */
  lemma {:induction false} EvaluationBegan(states: seq<State>, events: seq<Event>, k: nat, n: nat)
    requires IsRun(states, events) && k < n < |states| && events[k].Begin?
    ensures events[k].e in states[n].evaluations
    ensures states[n].evaluations[events[k].e].input == events[k].input
    ensures states[n].evaluations[events[k].e].began == states[k].published
    decreases n
  {
    assert Next(states[n - 1], events[n - 1], states[n]);
    if k + 1 < n {
      EvaluationBegan(states, events, k, n - 1);
    }
  }

  /** Step ev, in state s, gives evaluation e its decision: an entry it looks up, or the query it
      loads. */
  predicate Gives(s: State, ev: Event, e: nat, d: Decision) {
    && WellIndexed(s) && At(s, e)
    && ((ev == Lookup(e) && KeyOf(s, e) in s.cache && s.cache[KeyOf(s, e)].decision == d)
        || (ev == LoadQuery(e) && d == Decision(s.prepared, s.evaluations[e].input)))
  }

  ghost predicate WasGiven(states: seq<State>, events: seq<Event>, n: nat, e: nat, d: Decision)
    requires n <= |events| < |states|
  {
    exists k :: 0 <= k < n && Gives(states[k], events[k], e, d)
  }

  lemma GivenLater(states: seq<State>, events: seq<Event>, n: nat, e: nat, d: Decision)
    requires n < |events| < |states| && (WasGiven(states, events, n, e, d) || Gives(states[n], events[n], e, d))
    ensures WasGiven(states, events, n + 1, e, d)
  {
    hide Gives;
    if WasGiven(states, events, n, e, d) {
      var k :| 0 <= k < n && Gives(states[k], events[k], e, d);
      assert 0 <= k < n + 1;
    }
  }

  /** d is what evaluation ev will return, or has. */
  predicate InHand(ev: Evaluation, d: Decision) {
    match ev.phase
    case Loaded(l) => d == Decision(l.bundle, ev.input)
    case Storing(l, _) => d == Decision(l.bundle, ev.input)
    case Returned(r) => d == r
    case _ => false
  }

  lemma StepGives(s: State, ev: Event, s': State, e: nat, d: Decision)
    requires Next(s, ev, s') && e in s'.evaluations && InHand(s'.evaluations[e], d)
    ensures (e in s.evaluations && InHand(s.evaluations[e], d)) || Gives(s, ev, e, d)
  {
  }

  /** Every decision an evaluation returns is the cached one it looked up, or comes from the query
      it loaded, for its own input. */
  lemma {:induction false} DecisionHasASource(states: seq<State>, events: seq<Event>, n: nat, e: nat, d: Decision)
    requires IsRun(states, events) && n < |states| && e in states[n].evaluations && InHand(states[n].evaluations[e], d)
    ensures WasGiven(states, events, n, e, d)
  {
    if n > 0 {
      assert Next(states[n - 1], events[n - 1], states[n]);
      hide Next, Gives, InHand, WasGiven;
      StepGives(states[n - 1], events[n - 1], states[n], e, d);
      if e in states[n - 1].evaluations && InHand(states[n - 1].evaluations[e], d) {
        DecisionHasASource(states, events, n - 1, e, d);
      }
      GivenLater(states, events, n - 1, e, d);
    }
  }

  /** An evaluation fails exactly when the query does. */
  lemma {:induction false} FailsWithTheQuery(states: seq<State>, events: seq<Event>, n: nat, e: nat)
    requires IsRun(states, events) && n < |states|
    ensures EvalFails(e) in events[..n] <==> e in states[n].evaluations && states[n].evaluations[e].phase.Failed?
  {
    if n > 0 {
      assert Next(states[n - 1], events[n - 1], states[n]);
      assert events[..n] == events[..n - 1] + [events[n - 1]];
      FailsWithTheQuery(states, events, n - 1, e);
    }
  }

  /** Step ev, in state s, files an entry under key. */
  predicate Files(s: State, ev: Event, key: Key) {
    ev.Put? && WellIndexed(s) && At(s, ev.e) && KeyOf(s, ev.e) == key
  }

  predicate Clears(ev: Event, key: Key) {
    ev.Purge? || ev == Evict(key)
  }

  /** Some step before n filed the key, and nothing has cleared it since. */
  ghost predicate OnFile(states: seq<State>, events: seq<Event>, n: nat, key: Key)
    requires n <= |events| < |states|
  {
    exists k :: 0 <= k < n && Files(states[k], events[k], key) && forall m :: k < m < n ==> !Clears(events[m], key)
  }

  lemma OnFileLater(states: seq<State>, events: seq<Event>, n: nat, key: Key)
    requires n < |events| < |states|
    ensures OnFile(states, events, n + 1, key) <==>
      Files(states[n], events[n], key) || (OnFile(states, events, n, key) && !Clears(events[n], key))
  {
    hide Files;
    if OnFile(states, events, n, key) && !Clears(events[n], key) {
      var k :| 0 <= k < n && Files(states[k], events[k], key) && forall m :: k < m < n ==> !Clears(events[m], key);
      assert 0 <= k < n + 1 && forall m :: k < m < n + 1 ==> !Clears(events[m], key);
    }
    if OnFile(states, events, n + 1, key) && !Files(states[n], events[n], key) {
      var k :| 0 <= k < n + 1 && Files(states[k], events[k], key)
        && forall m :: k < m < n + 1 ==> !Clears(events[m], key);
      assert k < n;
    }
  }

  lemma CacheStep(s: State, ev: Event, s': State, key: Key)
    requires Next(s, ev, s')
    ensures key in s'.cache <==> Files(s, ev, key) || (key in s.cache && !Clears(ev, key))
    ensures key in s'.cache && Files(s, ev, key) ==> InHand(s.evaluations[ev.e], s'.cache[key].decision)
    ensures key in s'.cache && !Files(s, ev, key) ==> s'.cache[key] == s.cache[key]
  {
  }

  /** The cache holds a key exactly when an evaluation filed it and no purge or eviction came since. */
  lemma {:induction false} CacheIsHistory(states: seq<State>, events: seq<Event>, n: nat, key: Key)
    requires IsRun(states, events) && n < |states|
    ensures key in states[n].cache <==> OnFile(states, events, n, key)
  {
    if n > 0 {
      assert Next(states[n - 1], events[n - 1], states[n]);
      hide Next, OnFile, Files, Clears;
      CacheIsHistory(states, events, n - 1, key);
      OnFileLater(states, events, n - 1, key);
      CacheStep(states[n - 1], events[n - 1], states[n], key);
    }
  }

  // Building runs

  ghost predicate Ends(states: seq<State>, events: seq<Event>, s: State) {
    IsRun(states, events) && states[|events|] == s
  }

  lemma Start(r: Revision) returns (states: seq<State>, events: seq<Event>)
    ensures Ends(states, events, Init(r))
  {
    states, events := [Init(r)], [];
    assert states[0] == Init(r);
  }

  /** One more event at the end of a run. */
  lemma Extend(states: seq<State>, events: seq<Event>, s: State, ev: Event)
      returns (states': seq<State>, events': seq<Event>)
    requires Ends(states, events, s) && Enabled(s, ev)
    ensures Ends(states', events', Effect(s, ev))
  {
    states', events' := states + [Effect(s, ev)], events + [ev];
  }

  /** No reload is under way, and the bundles revs[..m] are installed. */
  ghost predicate Settled(s: State, revs: seq<Revision>, m: nat) {
    && 0 < m <= |revs| && s.revisions == revs[..m]
    && s.prepared == s.published == m - 1 && s.reload.Idle? && WellIndexed(s)
  }

  ghost predicate DistinctNeighbours(revs: seq<Revision>) {
    forall i :: 0 <= i < |revs| - 1 ==> revs[i] != revs[i + 1]
  }

  /** A complete reload of the next bundle. */
  lemma Install(states: seq<State>, events: seq<Event>, s: State, revs: seq<Revision>, m: nat)
      returns (states': seq<State>, events': seq<Event>, s': State)
    requires Ends(states, events, s) && Settled(s, revs, m) && m < |revs| && DistinctNeighbours(revs)
    ensures Ends(states', events', s') && Settled(s', revs, m + 1)
    ensures s'.evaluations == s.evaluations && s'.cache == map[]
  {
    hide Ends;
    states', events' := Extend(states, events, s, StorePrepared(revs[m]));
    s' := Effect(s, StorePrepared(revs[m]));
    states', events' := Extend(states', events', s', StoreRevision);
    s' := Effect(s', StoreRevision);
    states', events' := Extend(states', events', s', Purge);
    s' := Effect(s', Purge);
    assert revs[..m + 1] == revs[..m] + [revs[m]];
  }

  lemma {:induction false} InstallUpTo(states: seq<State>, events: seq<Event>, s: State, revs: seq<Revision>, m: nat,
      k: nat)
      returns (states': seq<State>, events': seq<Event>, s': State)
    requires Ends(states, events, s) && Settled(s, revs, m) && m <= k <= |revs| && DistinctNeighbours(revs)
    ensures Ends(states', events', s') && Settled(s', revs, k)
    ensures s'.evaluations == s.evaluations && (s.cache == map[] ==> s'.cache == map[])
    decreases k - m
  {
    hide Ends;
    states', events', s' := states, events, s;
    if m < k {
      states', events', s' := Install(states, events, s, revs, m);
      states', events', s' := InstallUpTo(states', events', s', revs, m + 1, k);
    }
  }

  /** An evaluation keyed by bundle i whose query is loaded after bundle i + 1 was installed. */
  lemma Overtaken(revs: seq<Revision>, i: nat, input: Input)
      returns (states: seq<State>, events: seq<Event>, s: State)
    requires i + 1 < |revs| && DistinctNeighbours(revs)
    ensures Ends(states, events, s) && Settled(s, revs, i + 2) && s.cache == map[]
    ensures
      && s.evaluations.Keys == {0} && s.evaluations[0].input == input && s.evaluations[0].began == i
      && s.evaluations[0].phase.Loaded? && s.evaluations[0].phase.load.bundle == i + 1
  {
    hide Ends;
    states, events := Start(revs[0]);
    assert revs[..1] == [revs[0]];
    states, events, s := InstallUpTo(states, events, Init(revs[0]), revs, 1, i + 1);
    states, events := Extend(states, events, s, Begin(0, input));
    s := Effect(s, Begin(0, input));
    states, events := Extend(states, events, s, Lookup(0));
    s := Effect(s, Lookup(0));
    states, events, s := Install(states, events, s, revs, i + 1);
    states, events := Extend(states, events, s, LoadQuery(0));
    s := Effect(s, LoadQuery(0));
  }

  /** When bundle i's revision comes back as bundle j, that evaluation files its decision under it. */
  lemma FiledAfterRollback(revs: seq<Revision>, i: nat, j: nat, input: Input)
      returns (states: seq<State>, events: seq<Event>, s: State)
    requires i < j < |revs| && revs[i] == revs[j] && DistinctNeighbours(revs)
    ensures Ends(states, events, s) && Settled(s, revs, j + 1) && s.evaluations.Keys == {0}
    ensures Key(revs[j], input) in s.cache && s.cache[Key(revs[j], input)].decision == Decision(i + 1, input)
  {
    hide Ends;
    states, events, s := Overtaken(revs, i, input);
    states, events, s := InstallUpTo(states, events, s, revs, i + 2, j + 1);
    states, events := Extend(states, events, s, Check(0));
    s := Effect(s, Check(0));
    states, events := Extend(states, events, s, Put(0));
    s := Effect(s, Put(0));
  }

  /** And the next evaluation is served with it. */
  lemma ServedAfterRollback(revs: seq<Revision>, i: nat, j: nat, input: Input)
      returns (states: seq<State>, events: seq<Event>, s: State)
    requires i < j < |revs| && revs[i] == revs[j] && DistinctNeighbours(revs)
    ensures Ends(states, events, s) && Settled(s, revs, j + 1)
    ensures 1 in s.evaluations && s.evaluations[1] == Evaluation(input, j, Returned(Decision(i + 1, input)))
  {
    hide Ends;
    states, events, s := FiledAfterRollback(revs, i, j, input);
    states, events := Extend(states, events, s, Begin(1, input));
    s := Effect(s, Begin(1, input));
    states, events := Extend(states, events, s, Lookup(1));
    s := Effect(s, Lookup(1));
  }

  /** A run that installs exactly these revisions and in which an evaluation returns the
      decision of a bundle older than the one published when it began. */
  ghost predicate StaleRun(revs: seq<Revision>, states: seq<State>, events: seq<Event>, e: nat) {
    && IsRun(states, events) && states[|events|].revisions == revs
    && e in states[|events|].evaluations && states[|events|].evaluations[e].phase.Returned?
    && states[|events|].evaluations[e].phase.decision.bundle < states[|events|].evaluations[e].began
  }

  lemma RepeatAllowsStale(revs: seq<Revision>, i: nat, j: nat, input: Input)
      returns (states: seq<State>, events: seq<Event>)
    requires i < j < |revs| && revs[i] == revs[j] && DistinctNeighbours(revs)
    ensures StaleRun(revs, states, events, 1) && states[|events|].evaluations[1].input == input
  {
    var s;
    states, events, s := ServedAfterRollback(revs, i, j, input);
    states, events, s := InstallUpTo(states, events, s, revs, j + 1, |revs|);
  }

  /** A stale decision is possible for a history of revisions exactly when some revision occurs
      in it twice. Neighbours differ in every history, since an unchanged revision is not reloaded. */
  lemma StaleExactlyOnRepeat(revs: seq<Revision>)
    requires revs != [] && DistinctNeighbours(revs)
    ensures (exists states, events, e :: StaleRun(revs, states, events, e)) <==> !NoRepeats(revs)
  {
    if !NoRepeats(revs) {
      var i, j :| 0 <= i < j < |revs| && revs[i] == revs[j];
      var states, events := RepeatAllowsStale(revs, i, j, "");
    } else {
      forall states, events, e | StaleRun(revs, states, events, e)
        ensures false
      {
        StaleNeedsRepeat(states, events, |events|, e);
      }
    }
  }

  lemma {:induction false} HistoryHasDistinctNeighbours(states: seq<State>, events: seq<Event>, n: nat)
    requires IsRun(states, events) && n < |states|
    ensures states[n].revisions != [] && DistinctNeighbours(states[n].revisions)
  {
    if n > 0 {
      HistoryHasDistinctNeighbours(states, events, n - 1);
      RunKeepsInv(states, events, n - 1);
      assert Next(states[n - 1], events[n - 1], states[n]);
    }
  }

  /** An evaluation keyed by bundle i that loads the query between the two stores of the
      reload of bundle i + 1. */
  lemma LoadedInWindow(revs: seq<Revision>, i: nat, input: Input)
      returns (states: seq<State>, events: seq<Event>, s: State)
    requires i + 1 < |revs| && DistinctNeighbours(revs)
    ensures Ends(states, events, s) && s.revisions == revs[..i + 2] && s.published == i && WellIndexed(s)
    ensures
      && s.evaluations.Keys == {0} && s.evaluations[0].input == input && s.evaluations[0].began == i
      && s.evaluations[0].phase.Loaded? && s.evaluations[0].phase.load.bundle == i + 1
  {
    hide Ends;
    states, events := Start(revs[0]);
    assert revs[..1] == [revs[0]];
    states, events, s := InstallUpTo(states, events, Init(revs[0]), revs, 1, i + 1);
    states, events := Extend(states, events, s, Begin(0, input));
    s := Effect(s, Begin(0, input));
    states, events := Extend(states, events, s, Lookup(0));
    s := Effect(s, Lookup(0));
    states, events := Extend(states, events, s, StorePrepared(revs[i + 1]));
    s := Effect(s, StorePrepared(revs[i + 1]));
    states, events := Extend(states, events, s, LoadQuery(0));
    s := Effect(s, LoadQuery(0));
    assert revs[..i + 2] == revs[..i + 1] + [revs[i + 1]];
  }

  /** So every reload can leave the new bundle's decision under the old revision. */
  lemma SuccessorIsCached(revs: seq<Revision>, i: nat, input: Input)
      returns (states: seq<State>, events: seq<Event>, s: State)
    requires i + 1 < |revs| && DistinctNeighbours(revs)
    ensures Ends(states, events, s) && s.revisions == revs[..i + 2]
    ensures Key(revs[i], input) in s.cache && s.cache[Key(revs[i], input)].decision == Decision(i + 1, input)
  {
    hide Ends;
    states, events, s := LoadedInWindow(revs, i, input);
    states, events := Extend(states, events, s, Check(0));
    s := Effect(s, Check(0));
    states, events := Extend(states, events, s, Put(0));
    s := Effect(s, Put(0));
  }

  predicate CanMove(s: State, e: nat) {
    Enabled(s, Lookup(e)) || Enabled(s, LoadQuery(e)) || (Enabled(s, Check(e)) && Enabled(s, EvalFails(e)))
      || Enabled(s, Put(e))
  }

  /** Evaluations and reloads never wait for each other: each unfinished one has a step to take in
      every state, and so has the cache's own eviction. */
  lemma NobodyWaits(states: seq<State>, events: seq<Event>, n: nat, e: nat, key: Key)
    requires IsRun(states, events) && n < |states|
    ensures e in states[n].evaluations ==>
      var phase := states[n].evaluations[e].phase;
      phase.Returned? || phase.Failed? || CanMove(states[n], e)
    ensures states[n].reload.HalfPublished? ==> Enabled(states[n], StoreRevision)
    ensures states[n].reload.Unpurged? ==> Enabled(states[n], Purge)
    ensures Enabled(states[n], Evict(key))
  {
    RunKeepsInv(states, events, n);
    assert forall f :: f in states[n].evaluations ==> EvaluationOk(states[n], states[n].evaluations[f]);
  }
}
