/**
 Key resolution as an interleaving of atomic steps: the cache, the singleflight
 group, the key provider and the two invalidation calls. The main results speak
 about every run: a verification that begins after an invalidation returns
 never obtains a key the provider was asked for before it, and never a key of
 another (subject, kid).
 */
module InvalidationFence {
  import opened Wrappers
  import FK = FlightKey
  import opened KeyCache

  /** Cache settings, fixed for the verifier's lifetime. */
  datatype Config = Config(ttl: int, maxEntries: int)

  /** A key as the provider answered it, with its history: for whom and at
      which step the provider was asked. No branch below reads the history. */
  datatype KeyRead = KeyRead(material: int, owner: CacheKey, asked: nat)

  datatype Outcome = Key(read: KeyRead) | Failed

  /** What get found under the read lock. It reads the clock only after releasing the lock. */
  type Found = Option<Entry<KeyRead>>

  /** A shared lookup: the function passed to singleflight.DoChan. */
  datatype FlightPhase =
    | Checking                             // about to re-check the cache
    | Rechecked(found: Found)              // read the cache, not yet the clock
    | Asking(asked: nat)                   // inside KeyProvider.VerificationKey
    | Answered(read: KeyRead)              // provider returned, clock not yet read
    | Storing(read: KeyRead, now: int)     // about to take the cache lock
    | Finished(out: Outcome)               // function returned, still joinable
    | Delivered(out: Outcome)              // removed from the group, results sent

  datatype Flight = Flight(id: FK.Bytes, ck: CacheKey, gen: nat, phase: FlightPhase)

  datatype Phase =
    | Began
    | LookedUp(found: Found)               // read the cache, not yet the clock
    | Missed
    | Fenced(gen: nat)
    | Waiting(flight: nat)
    | Returned(out: Outcome)

  datatype Verification = Verification(ck: CacheKey, began: nat, phase: Phase)

  datatype Target = OneKey(ck: CacheKey) | WholeSubject(subject: FK.Bytes)

  datatype Invalidation = Invalidation(target: Target, at: nat)

  /** `step` counts the steps taken so far; `invalidations` is their history. */
  datatype State = State(
    step: nat,
    clock: int,
    cache: Cache<KeyRead>,
    flights: seq<Flight>,
    group: map<FK.Bytes, nat>,
    verifications: map<nat, Verification>,
    invalidations: seq<Invalidation>)

  datatype Event =
    | Tick(elapsed: nat)
    | Begin(v: nat, ck: CacheKey)
    | Lookup(v: nat)
    | CheckExpiry(v: nat)
    | ReadGeneration(v: nat)
    | Join(v: nat)
    | Receive(v: nat)
    | Cancel(v: nat)
    | Recheck(f: nat)
    | RecheckExpiry(f: nat)
    | Answer(f: nat, material: Option<int>)
    | ReadClock(f: nat)
    | Store(f: nat, after: Cache<KeyRead>)
    | Deliver(f: nat)
    | Invalidate(target: Target)

  predicate Covers(t: Target, ck: CacheKey) {
    match t
    case OneKey(k) => k == ck
    case WholeSubject(s) => s == ck.subject
  }

  /** deleteKey or deleteSubject. */
  function Drop(cache: Cache<KeyRead>, t: Target): Cache<KeyRead> {
    match t
    case OneKey(ck) => DropKey(cache, ck)
    case WholeSubject(subject) => DropSubject(cache, subject)
  }

  function Init(): State {
    State(0, 0, Cache(map[], 0), [], map[], map[], [])
  }

  ghost predicate Enabled(cfg: Config, s: State, e: Event) {
    match e
    case Tick(_) => true
    case Begin(v, _) => v !in s.verifications
    case Lookup(v) => v in s.verifications && s.verifications[v].phase.Began?
    case CheckExpiry(v) => v in s.verifications && s.verifications[v].phase.LookedUp?
    case ReadGeneration(v) => v in s.verifications && s.verifications[v].phase.Missed?
    case Join(v) => v in s.verifications && s.verifications[v].phase.Fenced?
    case Receive(v) =>
      && v in s.verifications
      && s.verifications[v].phase.Waiting?
      && s.verifications[v].phase.flight < |s.flights|
      && s.flights[s.verifications[v].phase.flight].phase.Delivered?
    case Cancel(v) => v in s.verifications && s.verifications[v].phase.Waiting?
    case Recheck(f) => f < |s.flights| && s.flights[f].phase.Checking?
    case RecheckExpiry(f) => f < |s.flights| && s.flights[f].phase.Rechecked?
    case Answer(f, _) => f < |s.flights| && s.flights[f].phase.Asking?
    case ReadClock(f) => f < |s.flights| && s.flights[f].phase.Answered?
    case Store(f, after) =>
      && f < |s.flights|
      && s.flights[f].phase.Storing?
      && Puts(s.cache, s.flights[f].ck, s.flights[f].phase.read, s.flights[f].gen, s.flights[f].phase.now, cfg.ttl,
        cfg.maxEntries, after)
    case Deliver(f) => f < |s.flights| && s.flights[f].phase.Finished?
    case Invalidate(_) => true
  }

  function SetPhase(s: State, v: nat, p: Phase): State
    requires v in s.verifications
  {
    s.(verifications := s.verifications[v := s.verifications[v].(phase := p)])
  }

  function SetFlight(s: State, f: nat, p: FlightPhase): State
    requires f < |s.flights|
  {
    s.(flights := s.flights[f := s.flights[f].(phase := p)])
  }

  function Find(cache: Cache<KeyRead>, ck: CacheKey): Found {
    if ck in cache.items then Some(cache.items[ck]) else None
  }

  predicate Unexpired(found: Found, now: int) {
    found.Some? && now < found.value.expires
  }

  /** DoChan: join the flight registered under the key, or register a new one. */
  function JoinFlight(s: State, v: nat): State
    requires v in s.verifications && s.verifications[v].phase.Fenced?
  {
    var ck, gen := s.verifications[v].ck, s.verifications[v].phase.gen;
    var id := FK.Encode(ck.subject, ck.kid, gen);
    if id in s.group then
      SetPhase(s, v, Waiting(s.group[id]))
    else
      var n := |s.flights|;
      SetPhase(s.(flights := s.flights + [Flight(id, ck, gen, Checking)], group := s.group[id := n]), v, Waiting(n))
  }

  ghost function Effect(cfg: Config, s: State, e: Event): State
    requires Enabled(cfg, s, e)
  {
    match e
    case Tick(elapsed) => s.(clock := s.clock + elapsed)
    case Begin(v, ck) => s.(verifications := s.verifications[v := Verification(ck, s.step, Began)])
    case Lookup(v) => SetPhase(s, v, LookedUp(Find(s.cache, s.verifications[v].ck)))
    case CheckExpiry(v) =>
      var found := s.verifications[v].phase.found;
      SetPhase(s, v, if Unexpired(found, s.clock) then Returned(Key(found.value.key)) else Missed)
    case ReadGeneration(v) => SetPhase(s, v, Fenced(s.cache.gen))
    case Join(v) => JoinFlight(s, v)
    case Receive(v) => SetPhase(s, v, Returned(s.flights[s.verifications[v].phase.flight].phase.out))
    case Cancel(v) => SetPhase(s, v, Returned(Failed))
    case Recheck(f) => SetFlight(s, f, Rechecked(Find(s.cache, s.flights[f].ck)))
    case RecheckExpiry(f) =>
      var found := s.flights[f].phase.found;
      SetFlight(s, f, if Unexpired(found, s.clock) then Finished(Key(found.value.key)) else Asking(s.step))
    case Answer(f, material) =>
      SetFlight(s, f,
        match material
        case None => Finished(Failed)
        case Some(m) => Answered(KeyRead(m, s.flights[f].ck, s.flights[f].phase.asked)))
    case ReadClock(f) => SetFlight(s, f, Storing(s.flights[f].phase.read, s.clock))
    case Store(f, after) => SetFlight(s.(cache := after), f, Finished(Key(s.flights[f].phase.read)))
    case Deliver(f) =>
      var id := s.flights[f].id;
      SetFlight(s.(group := if id in s.group && s.group[id] == f then s.group - {id} else s.group), f,
        Delivered(s.flights[f].phase.out))
    case Invalidate(t) =>
      s.(cache := Drop(s.cache, t),
         invalidations := s.invalidations + [Invalidation(t, s.step)])
  }

  ghost predicate Next(cfg: Config, s: State, e: Event, s': State) {
    Enabled(cfg, s, e) && s' == Effect(cfg, s, e).(step := s.step + 1)
  }

  /** states[i] --events[i]--> states[i + 1], from the initial state. */
  ghost predicate IsRun(cfg: Config, states: seq<State>, events: seq<Event>) {
    && |states| == |events| + 1
    && states[0] == Init()
    && forall i :: 0 <= i < |events| ==> Next(cfg, states[i], events[i], states[i + 1])
  }

  type History = seq<Invalidation>

  /** Each of the first n invalidations that hit r's key precedes r's provider call. */
  ghost predicate AskedAfter(h: History, n: nat, r: KeyRead)
    requires n <= |h|
  {
    forall i :: 0 <= i < n && Covers(h[i].target, r.owner) ==> h[i].at < r.asked
  }

  /** gen counts at least the invalidations that preceded step `began`. */
  ghost predicate SeesAllBefore(h: History, began: nat, gen: nat) {
    gen <= |h| && forall i :: gen <= i < |h| ==> h[i].at >= began
  }

  /** Each invalidation of r's key that preceded `began` precedes r's provider call. */
  ghost predicate OutlivesEarlier(h: History, began: nat, r: KeyRead) {
    forall i :: 0 <= i < |h| && h[i].at < began && Covers(h[i].target, r.owner) ==> h[i].at < r.asked
  }

  ghost predicate ReadOk(h: History, f: Flight, r: KeyRead)
    requires f.gen <= |h|
  {
    r.owner == f.ck && AskedAfter(h, f.gen, r)
  }

  ghost predicate FlightOk(h: History, f: Flight) {
    && f.id == FK.Encode(f.ck.subject, f.ck.kid, f.gen)
    && f.gen <= |h|
    && match f.phase
       case Checking => true
       case Rechecked(found) => found.Some? ==> ReadOk(h, f, found.value.key)
       case Asking(asked) => forall i :: 0 <= i < f.gen ==> h[i].at < asked
       case Answered(r) => ReadOk(h, f, r)
       case Storing(r, _) => ReadOk(h, f, r)
       case Finished(out) => out.Key? ==> ReadOk(h, f, out.read)
       case Delivered(out) => out.Key? ==> ReadOk(h, f, out.read)
  }

  ghost predicate VerificationOk(h: History, flights: seq<Flight>, step: nat, v: Verification) {
    && v.began <= step
    && match v.phase
       case Began => true
       case LookedUp(found) => found.Some? ==>
         found.value.key.owner == v.ck && OutlivesEarlier(h, v.began, found.value.key)
       case Missed => true
       case Fenced(gen) => SeesAllBefore(h, v.began, gen)
       case Waiting(f) => f < |flights| && flights[f].ck == v.ck && SeesAllBefore(h, v.began, flights[f].gen)
       case Returned(out) => out.Key? ==> out.read.owner == v.ck && OutlivesEarlier(h, v.began, out.read)
  }

  ghost predicate EntriesOk(h: History, items: map<CacheKey, Entry<KeyRead>>) {
    forall ck :: ck in items ==> items[ck].key.owner == ck && AskedAfter(h, |h|, items[ck].key)
  }

  /** The group holds exactly the undelivered flights, under their own ids. */
  ghost predicate GroupOk(flights: seq<Flight>, group: map<FK.Bytes, nat>) {
    && (forall id :: id in group ==> group[id] < |flights| && flights[group[id]].id == id)
    && (forall id :: id in group ==> !flights[group[id]].phase.Delivered?)
    && (forall f :: 0 <= f < |flights| && !flights[f].phase.Delivered? ==>
      flights[f].id in group && group[flights[f].id] == f)
  }

  ghost predicate HistoryOk(h: History, step: nat) {
    forall i :: 0 <= i < |h| ==> h[i].at < step
  }

  ghost predicate FlightsOk(h: History, flights: seq<Flight>) {
    forall f :: 0 <= f < |flights| ==> FlightOk(h, flights[f])
  }

  ghost predicate VerificationsOk(s: State) {
    forall v :: v in s.verifications ==> VerificationOk(s.invalidations, s.flights, s.step, s.verifications[v])
  }

  ghost predicate Inv(cfg: Config, s: State) {
    && s.cache.gen == |s.invalidations|
    && WithinCap(s.cache, cfg.maxEntries)
    && EntriesOk(s.invalidations, s.cache.items)
    && GroupOk(s.flights, s.group)
    && HistoryOk(s.invalidations, s.step)
    && FlightsOk(s.invalidations, s.flights)
    && VerificationsOk(s)
  }

  /** Appending flights, or moving one to another phase, leaves verifications ok. */
  lemma VerificationsFrame(s: State, s': State)
    requires VerificationsOk(s)
    requires s'.verifications == s.verifications && s'.invalidations == s.invalidations && s.step <= s'.step
    requires |s.flights| <= |s'.flights|
    requires forall f :: 0 <= f < |s.flights| ==>
      s'.flights[f].ck == s.flights[f].ck && s'.flights[f].gen == s.flights[f].gen
    ensures VerificationsOk(s')
  {
    forall v | v in s'.verifications
      ensures VerificationOk(s'.invalidations, s'.flights, s'.step, s'.verifications[v])
    {
      assert VerificationOk(s.invalidations, s.flights, s.step, s.verifications[v]);
    }
  }

  /** One verification moves to an ok phase, the rest stay put. */
  lemma VerificationMoves(s: State, v: nat, p: Phase, s': State)
    requires VerificationsOk(s) && v in s.verifications
    requires s' == SetPhase(s, v, p).(step := s.step + 1)
    requires VerificationOk(s.invalidations, s.flights, s.step, s.verifications[v].(phase := p))
    ensures VerificationsOk(s')
  {
    forall u | u in s'.verifications
      ensures VerificationOk(s'.invalidations, s'.flights, s'.step, s'.verifications[u])
    {
      if u != v {
        assert VerificationOk(s.invalidations, s.flights, s.step, s.verifications[u]);
      }
    }
  }

  lemma LookupKeepsInv(cfg: Config, s: State, v: nat, s': State)
    requires Inv(cfg, s) && Next(cfg, s, Lookup(v), s')
    ensures Inv(cfg, s')
  {
    assert VerificationOk(s.invalidations, s.flights, s.step, s.verifications[v]);
    VerificationMoves(s, v, s'.verifications[v].phase, s');
  }

  lemma ReceiveKeepsInv(cfg: Config, s: State, v: nat, s': State)
    requires Inv(cfg, s) && Next(cfg, s, Receive(v), s')
    ensures Inv(cfg, s')
  {
    var ver := s.verifications[v];
    assert VerificationOk(s.invalidations, s.flights, s.step, ver);
    assert FlightOk(s.invalidations, s.flights[ver.phase.flight]);
    VerificationMoves(s, v, s'.verifications[v].phase, s');
  }

  lemma PlainStepKeepsInv(cfg: Config, s: State, e: Event, s': State)
    requires Inv(cfg, s) && Next(cfg, s, e, s')
    requires e.CheckExpiry? || e.ReadGeneration? || e.Cancel? || e.Tick?
    ensures Inv(cfg, s')
  {
    match e {
      case Tick(_) => VerificationsFrame(s, s');
      case CheckExpiry(v) =>
        assert VerificationOk(s.invalidations, s.flights, s.step, s.verifications[v]);
        VerificationMoves(s, v, s'.verifications[v].phase, s');
      case ReadGeneration(v) =>
        assert VerificationOk(s.invalidations, s.flights, s.step, s.verifications[v]);
        VerificationMoves(s, v, Fenced(s.cache.gen), s');
      case Cancel(v) =>
        assert VerificationOk(s.invalidations, s.flights, s.step, s.verifications[v]);
        VerificationMoves(s, v, Returned(Failed), s');
    }
  }

  lemma BeginKeepsInv(cfg: Config, s: State, v: nat, ck: CacheKey, s': State)
    requires Inv(cfg, s) && Next(cfg, s, Begin(v, ck), s')
    ensures Inv(cfg, s')
  {
    forall u | u in s'.verifications
      ensures VerificationOk(s'.invalidations, s'.flights, s'.step, s'.verifications[u])
    {
      if u != v {
        assert VerificationOk(s.invalidations, s.flights, s.step, s.verifications[u]);
      }
    }
  }

  lemma EntersGroup(flights: seq<Flight>, group: map<FK.Bytes, nat>, fl: Flight)
    requires GroupOk(flights, group) && fl.id !in group && !fl.phase.Delivered?
    ensures GroupOk(flights + [fl], group[fl.id := |flights|])
  {
  }

  lemma FlightAdded(h: History, flights: seq<Flight>, fl: Flight)
    requires FlightsOk(h, flights) && FlightOk(h, fl)
    ensures FlightsOk(h, flights + [fl])
  {
  }

  lemma FlightChanged(h: History, flights: seq<Flight>, f: nat, fl: Flight)
    requires FlightsOk(h, flights) && FlightOk(h, fl) && f < |flights|
    ensures FlightsOk(h, flights[f := fl])
  {
  }

  /** Two flights registered under one id are for the same key and generation. */
  lemma SharedFlight(h: History, ck: CacheKey, gen: nat, f: Flight)
    requires FlightOk(h, f) && f.id == FK.Encode(ck.subject, ck.kid, gen)
    ensures f.ck == ck && f.gen == gen
  {
    FK.Injective(ck.subject, ck.kid, gen, f.ck.subject, f.ck.kid, f.gen);
  }

  lemma JoinKeepsInv(cfg: Config, s: State, v: nat, s': State)
    requires Inv(cfg, s) && Next(cfg, s, Join(v), s')
    ensures Inv(cfg, s')
  {
    var ck, gen := s.verifications[v].ck, s.verifications[v].phase.gen;
    assert VerificationOk(s.invalidations, s.flights, s.step, s.verifications[v]);
    var id := FK.Encode(ck.subject, ck.kid, gen);
    if id in s.group {
      assert FlightOk(s.invalidations, s.flights[s.group[id]]);
      SharedFlight(s.invalidations, ck, gen, s.flights[s.group[id]]);
      VerificationMoves(s, v, Waiting(s.group[id]), s');
    } else {
      hide GroupOk, FlightsOk, VerificationsOk;
      var n, fl := |s.flights|, Flight(id, ck, gen, Checking);
      var mid := s.(flights := s.flights + [fl], group := s.group[id := n]);
      EntersGroup(s.flights, s.group, fl);
      FlightAdded(s.invalidations, s.flights, fl);
      VerificationsFrame(s, mid);
      VerificationMoves(mid, v, Waiting(n), s');
    }
  }

  /** A flight of the group changes phase without leaving the group. */
  lemma FlightMoves(cfg: Config, s: State, f: nat, p: FlightPhase, s': State)
    requires Inv(cfg, s) && f < |s.flights|
    requires !s.flights[f].phase.Delivered? && !p.Delivered?
    requires FlightOk(s.invalidations, s.flights[f].(phase := p))
    requires s' == SetFlight(s, f, p).(step := s.step + 1)
    ensures Inv(cfg, s')
  {
    VerificationsFrame(s, s');
  }

  lemma RecheckKeepsInv(cfg: Config, s: State, f: nat, s': State)
    requires Inv(cfg, s) && Next(cfg, s, Recheck(f), s')
    ensures Inv(cfg, s')
  {
    assert FlightOk(s.invalidations, s.flights[f]);
    FlightMoves(cfg, s, f, s'.flights[f].phase, s');
  }

  lemma RecheckExpiryKeepsInv(cfg: Config, s: State, f: nat, s': State)
    requires Inv(cfg, s) && Next(cfg, s, RecheckExpiry(f), s')
    ensures Inv(cfg, s')
  {
    assert FlightOk(s.invalidations, s.flights[f]);
    FlightMoves(cfg, s, f, s'.flights[f].phase, s');
  }

  lemma AnswerKeepsInv(cfg: Config, s: State, f: nat, material: Option<int>, s': State)
    requires Inv(cfg, s) && Next(cfg, s, Answer(f, material), s')
    ensures Inv(cfg, s')
  {
    assert FlightOk(s.invalidations, s.flights[f]);
    FlightMoves(cfg, s, f, s'.flights[f].phase, s');
  }

  lemma ReadClockKeepsInv(cfg: Config, s: State, f: nat, s': State)
    requires Inv(cfg, s) && Next(cfg, s, ReadClock(f), s')
    ensures Inv(cfg, s')
  {
    assert FlightOk(s.invalidations, s.flights[f]);
    FlightMoves(cfg, s, f, s'.flights[f].phase, s');
  }

  lemma StoreKeepsInv(cfg: Config, s: State, f: nat, after: Cache<KeyRead>, s': State)
    requires Inv(cfg, s) && Next(cfg, s, Store(f, after), s')
    ensures Inv(cfg, s')
  {
    var fl := s.flights[f];
    assert FlightOk(s.invalidations, fl);
    PutsEffect(s.cache, fl.ck, fl.phase.read, fl.gen, fl.phase.now, cfg.ttl, cfg.maxEntries, after);
    assert EntriesOk(s.invalidations, after.items);
    FlightMoves(cfg, s.(cache := after), f, s'.flights[f].phase, s');
  }

  lemma LeavesGroup(flights: seq<Flight>, group: map<FK.Bytes, nat>, f: nat, out: Outcome)
    requires GroupOk(flights, group) && f < |flights| && !flights[f].phase.Delivered?
    ensures GroupOk(flights[f := flights[f].(phase := Delivered(out))], group - {flights[f].id})
  {
    var flights' := flights[f := flights[f].(phase := Delivered(out))];
    var group' := group - {flights[f].id};
    forall g | 0 <= g < |flights'| && !flights'[g].phase.Delivered?
      ensures flights'[g].id in group' && group'[flights'[g].id] == g
    {
      assert flights'[g] == flights[g];
    }
  }

  lemma DeliverKeepsInv(cfg: Config, s: State, f: nat, s': State)
    requires Inv(cfg, s) && Next(cfg, s, Deliver(f), s')
    ensures Inv(cfg, s')
  {
    var out := s.flights[f].phase.out;
    assert FlightOk(s.invalidations, s.flights[f]);
    assert s'.flights == s.flights[f := s.flights[f].(phase := Delivered(out))];
    assert s'.group == s.group - {s.flights[f].id};
    hide GroupOk, FlightsOk, VerificationsOk;
    LeavesGroup(s.flights, s.group, f, out);
    FlightChanged(s.invalidations, s.flights, f, s'.flights[f]);
    VerificationsFrame(s, s');
  }

  /** A later invalidation is no concern of what already happened. */
  lemma FlightsOutlast(h: History, x: Invalidation, flights: seq<Flight>)
    requires FlightsOk(h, flights)
    ensures FlightsOk(h + [x], flights)
  {
    forall f | 0 <= f < |flights|
      ensures FlightOk(h + [x], flights[f])
    {
      assert FlightOk(h, flights[f]);
    }
  }

  lemma VerificationsOutlast(s: State, x: Invalidation, s': State)
    requires VerificationsOk(s) && x.at == s.step
    requires s'.verifications == s.verifications && s'.flights == s.flights
    requires s'.invalidations == s.invalidations + [x] && s'.step == s.step + 1
    ensures VerificationsOk(s')
  {
    forall v | v in s'.verifications
      ensures VerificationOk(s'.invalidations, s'.flights, s'.step, s'.verifications[v])
    {
      assert VerificationOk(s.invalidations, s.flights, s.step, s.verifications[v]);
    }
  }

  /** Entries that survive an invalidation are the ones it does not cover. */
  lemma DropKeepsEntries(cfg: Config, s: State, t: Target, c: Cache<KeyRead>)
    requires Inv(cfg, s)
    requires c == Drop(s.cache, t)
    ensures WithinCap(c, cfg.maxEntries)
    ensures EntriesOk(s.invalidations + [Invalidation(t, s.step)], c.items)
  {
    match t {
      case OneKey(ck) => DropsEffect(s.cache, ck, ck.subject, cfg.maxEntries);
      case WholeSubject(subject) => DropsEffect(s.cache, CacheKey([], []), subject, cfg.maxEntries);
    }
    var h := s.invalidations + [Invalidation(t, s.step)];
    forall ck | ck in c.items
      ensures c.items[ck].key.owner == ck && AskedAfter(h, |h|, c.items[ck].key)
    {
      assert !Covers(t, ck);
      assert AskedAfter(s.invalidations, |s.invalidations|, s.cache.items[ck].key);
    }
  }

  lemma InvalidateKeepsInv(cfg: Config, s: State, t: Target, s': State)
    requires Inv(cfg, s) && Next(cfg, s, Invalidate(t), s')
    ensures Inv(cfg, s')
  {
    DropKeepsEntries(cfg, s, t, s'.cache);
    FlightsOutlast(s.invalidations, Invalidation(t, s.step), s.flights);
    VerificationsOutlast(s, Invalidation(t, s.step), s');
  }

  lemma NextKeepsInv(cfg: Config, s: State, e: Event, s': State)
    requires Inv(cfg, s) && Next(cfg, s, e, s')
    ensures Inv(cfg, s')
  {
    match e {
      case Tick(_) => PlainStepKeepsInv(cfg, s, e, s');
      case CheckExpiry(_) => PlainStepKeepsInv(cfg, s, e, s');
      case ReadGeneration(_) => PlainStepKeepsInv(cfg, s, e, s');
      case Cancel(_) => PlainStepKeepsInv(cfg, s, e, s');
      case Begin(v, ck) => BeginKeepsInv(cfg, s, v, ck, s');
      case Lookup(v) => LookupKeepsInv(cfg, s, v, s');
      case Join(v) => JoinKeepsInv(cfg, s, v, s');
      case Receive(v) => ReceiveKeepsInv(cfg, s, v, s');
      case Recheck(f) => RecheckKeepsInv(cfg, s, f, s');
      case RecheckExpiry(f) => RecheckExpiryKeepsInv(cfg, s, f, s');
      case Answer(f, m) => AnswerKeepsInv(cfg, s, f, m, s');
      case ReadClock(f) => ReadClockKeepsInv(cfg, s, f, s');
      case Store(f, after) => StoreKeepsInv(cfg, s, f, after, s');
      case Deliver(f) => DeliverKeepsInv(cfg, s, f, s');
      case Invalidate(t) => InvalidateKeepsInv(cfg, s, t, s');
    }
  }

  lemma {:induction false} RunKeepsInv(cfg: Config, states: seq<State>, events: seq<Event>, n: nat)
    requires IsRun(cfg, states, events) && n < |states|
    ensures Inv(cfg, states[n]) && states[n].step == n
  {
    if n > 0 {
      RunKeepsInv(cfg, states, events, n - 1);
      NextKeepsInv(cfg, states[n - 1], events[n - 1], states[n]);
    }
  }

  /** What a step never takes back: recorded invalidations and begun verifications. */
  lemma StepKeepsRecords(cfg: Config, s: State, e: Event, s': State)
    requires Next(cfg, s, e, s')
    ensures s.invalidations <= s'.invalidations
    ensures forall v :: v in s.verifications ==>
      v in s'.verifications && s'.verifications[v].ck == s.verifications[v].ck
        && s'.verifications[v].began == s.verifications[v].began
  {
  }

  lemma {:induction false} RunKeepsRecords(cfg: Config, states: seq<State>, events: seq<Event>, i: nat, j: nat)
    requires IsRun(cfg, states, events) && i <= j < |states|
    ensures states[i].invalidations <= states[j].invalidations
    ensures forall v :: v in states[i].verifications ==>
              && v in states[j].verifications
              && states[j].verifications[v].ck == states[i].verifications[v].ck
              && states[j].verifications[v].began == states[i].verifications[v].began
    decreases j - i
  {
    if i < j {
      RunKeepsRecords(cfg, states, events, i, j - 1);
      StepKeepsRecords(cfg, states[j - 1], events[j - 1], states[j]);
    }
  }

  // Where keys come from

  predicate FlightMentions(p: FlightPhase, r: KeyRead) {
    match p
    case Checking => false
    case Rechecked(found) => found.Some? && found.value.key == r
    case Asking(_) => false
    case Answered(read) => read == r
    case Storing(read, _) => read == r
    case Finished(out) => out == Key(r)
    case Delivered(out) => out == Key(r)
  }

  predicate PhaseMentions(p: Phase, r: KeyRead) {
    (p.LookedUp? && p.found.Some? && p.found.value.key == r) || (p.Returned? && p.out == Key(r))
  }

  /** r is cached, or some lookup or verification has it in hand. */
  ghost predicate Mentions(s: State, r: KeyRead) {
    || (exists ck :: ck in s.cache.items && s.cache.items[ck].key == r)
    || (exists f :: 0 <= f < |s.flights| && FlightMentions(s.flights[f].phase, r))
    || (exists v :: v in s.verifications && PhaseMentions(s.verifications[v].phase, r))
  }

  /** Event e, in state s, is the provider's answer r. */
  predicate Answers(s: State, e: Event, r: KeyRead) {
    && e.Answer? && e.material == Some(r.material) && e.f < |s.flights|
    && s.flights[e.f].ck == r.owner && s.flights[e.f].phase == Asking(r.asked)
  }

  lemma MentionIsOldOrAnswered(cfg: Config, s: State, e: Event, s': State, r: KeyRead)
    requires Next(cfg, s, e, s') && Mentions(s', r)
    ensures Mentions(s, r) || Answers(s, e, r)
  {
    hide Next;
    if ck :| ck in s'.cache.items && s'.cache.items[ck].key == r {
      CachedWasMentioned(cfg, s, e, s', ck);
    } else if f :| 0 <= f < |s'.flights| && FlightMentions(s'.flights[f].phase, r) {
      InFlightWasMentioned(cfg, s, e, s', f, r);
    } else {
      var v :| v in s'.verifications && PhaseMentions(s'.verifications[v].phase, r);
      InHandWasMentioned(cfg, s, e, s', v, r);
    }
  }

  lemma InFlightWasMentioned(cfg: Config, s: State, e: Event, s': State, f: nat, r: KeyRead)
    requires Next(cfg, s, e, s') && f < |s'.flights| && FlightMentions(s'.flights[f].phase, r)
    ensures Mentions(s, r) || Answers(s, e, r)
  {
    if f < |s.flights| {
      assert e.RecheckExpiry? && e.f == f ==> FlightMentions(s.flights[f].phase, r);
    }
  }

  lemma InHandWasMentioned(cfg: Config, s: State, e: Event, s': State, v: nat, r: KeyRead)
    requires Next(cfg, s, e, s') && v in s'.verifications && PhaseMentions(s'.verifications[v].phase, r)
    ensures Mentions(s, r)
  {
    if e == Receive(v) {
      assert FlightMentions(s.flights[s.verifications[v].phase.flight].phase, r);
    }
  }

  lemma CachedWasMentioned(cfg: Config, s: State, e: Event, s': State, ck: CacheKey)
    requires Next(cfg, s, e, s') && ck in s'.cache.items
    ensures Mentions(s, s'.cache.items[ck].key)
  {
    if e.Store? {
      var fl := s.flights[e.f];
      assert FlightMentions(fl.phase, fl.phase.read);
    }
  }

  /** The provider was asked at step r.asked, by a lookup that missed, and answered r before step n. */
  ghost predicate FromProvider(states: seq<State>, events: seq<Event>, n: nat, r: KeyRead)
    requires n <= |events| < |states|
  {
    exists k :: r.asked < k < n && Answers(states[k], events[k], r) && events[r.asked] == RecheckExpiry(events[k].f)
  }

  lemma FromProviderLater(states: seq<State>, events: seq<Event>, n: nat, r: KeyRead)
    requires n < |events| < |states| && FromProvider(states, events, n, r)
    ensures FromProvider(states, events, n + 1, r)
  {
    var k :| r.asked < k < n && Answers(states[k], events[k], r) && events[r.asked] == RecheckExpiry(events[k].f);
    assert r.asked < k < n + 1;
  }

  lemma StepAsks(cfg: Config, s: State, e: Event, s': State, f: nat)
    requires Next(cfg, s, e, s') && f < |s'.flights| && s'.flights[f].phase.Asking?
    ensures
      || (f < |s.flights| && s.flights[f].phase == s'.flights[f].phase)
      || (e == RecheckExpiry(f) && s'.flights[f].phase.asked == s.step)
  {
  }

  /** A lookup that waits for the provider asked it when its re-check missed. */
  lemma {:induction false} AskingBegan(cfg: Config, states: seq<State>, events: seq<Event>, n: nat, f: nat)
    requires IsRun(cfg, states, events) && n < |states| && f < |states[n].flights|
    requires states[n].flights[f].phase.Asking?
    ensures states[n].flights[f].phase.asked < n && events[states[n].flights[f].phase.asked] == RecheckExpiry(f)
  {
    assert Next(cfg, states[n - 1], events[n - 1], states[n]);
    hide Next, Inv;
    StepAsks(cfg, states[n - 1], events[n - 1], states[n], f);
    if f < |states[n - 1].flights| && states[n - 1].flights[f].phase == states[n].flights[f].phase {
      AskingBegan(cfg, states, events, n - 1, f);
    } else {
      RunKeepsInv(cfg, states, events, n - 1);
    }
  }

  lemma {:induction false} MentionedFromProvider(
      cfg: Config, states: seq<State>, events: seq<Event>, n: nat, r: KeyRead)
    requires IsRun(cfg, states, events) && n < |states| && Mentions(states[n], r)
    ensures FromProvider(states, events, n, r)
  {
    if n > 0 {
      assert Next(cfg, states[n - 1], events[n - 1], states[n]);
      hide Next, Mentions, FromProvider;
      MentionIsOldOrAnswered(cfg, states[n - 1], events[n - 1], states[n], r);
      if Mentions(states[n - 1], r) {
        MentionedFromProvider(cfg, states, events, n - 1, r);
        FromProviderLater(states, events, n - 1, r);
      } else {
        AskingBegan(cfg, states, events, n - 1, events[n - 1].f);
        AnswerIsFromProvider(states, events, n - 1, r);
      }
    }
  }

  lemma AnswerIsFromProvider(states: seq<State>, events: seq<Event>, k: nat, r: KeyRead)
    requires k < |events| < |states| && r.asked < k
    requires Answers(states[k], events[k], r) && events[r.asked] == RecheckExpiry(events[k].f)
    ensures FromProvider(states, events, k + 1, r)
  {
  }

  /** Every key a verification returns, and every key the cache holds, is what the provider
      answered when it was asked for that very (subject, kid). */
  lemma KeysComeFromProvider(cfg: Config, states: seq<State>, events: seq<Event>, n: nat, r: KeyRead)
    requires IsRun(cfg, states, events) && n < |states|
    ensures forall v :: v in states[n].verifications && states[n].verifications[v].phase == Returned(Key(r)) ==>
      r.owner == states[n].verifications[v].ck && FromProvider(states, events, n, r)
    ensures forall ck :: ck in states[n].cache.items && states[n].cache.items[ck].key == r ==>
      r.owner == ck && FromProvider(states, events, n, r)
  {
    RunKeepsInv(cfg, states, events, n);
    var s := states[n];
    forall v | v in s.verifications && s.verifications[v].phase == Returned(Key(r))
      ensures r.owner == s.verifications[v].ck && FromProvider(states, events, n, r)
    {
      assert VerificationOk(s.invalidations, s.flights, s.step, s.verifications[v]);
      MentionedFromProvider(cfg, states, events, n, r);
    }
    forall ck | ck in s.cache.items && s.cache.items[ck].key == r
      ensures r.owner == ck && FromProvider(states, events, n, r)
    {
      MentionedFromProvider(cfg, states, events, n, r);
    }
  }

  // The guarantees

  /**
   The fence: when an invalidation covering (subject, kid) is step i, a
   verification of that (subject, kid) begins at a later step j, and it has
   returned a key by state n, then the provider was asked for exactly that
   (subject, kid) after step i, and the key is what it answered.
   */
  lemma Fence(cfg: Config, states: seq<State>, events: seq<Event>, i: nat, j: nat, n: nat)
    requires IsRun(cfg, states, events) && i < j < n < |states|
    requires events[i].Invalidate? && events[j].Begin? && Covers(events[i].target, events[j].ck)
    requires events[j].v in states[n].verifications
    requires states[n].verifications[events[j].v].phase.Returned?
    ensures var out := states[n].verifications[events[j].v].phase.out;
            out.Key? ==>
              out.read.owner == events[j].ck && out.read.asked > i && FromProvider(states, events, n, out.read)
  {
    hide FromProvider, FlightsOk, GroupOk, EntriesOk;
    var v := events[j].v;
    RunKeepsInv(cfg, states, events, i);
    RunKeepsInv(cfg, states, events, j);
    RunKeepsInv(cfg, states, events, n);
    RunKeepsRecords(cfg, states, events, i + 1, n);
    RunKeepsRecords(cfg, states, events, j + 1, n);
    var k := |states[i].invalidations|;
    assert states[i + 1].invalidations[k] == Invalidation(events[i].target, i);
    assert states[n].invalidations[k] == Invalidation(events[i].target, i);
    assert states[n].verifications[v].began == j;
    if states[n].verifications[v].phase.out.Key? {
      KeysComeFromProvider(cfg, states, events, n, states[n].verifications[v].phase.out.read);
    }
  }

  /** Whatever the cache holds in any state of any run was asked for after
      every invalidation of its key so far and answered by the provider, and the size cap holds. */
  lemma CacheStaysFresh(cfg: Config, states: seq<State>, events: seq<Event>, n: nat, ck: CacheKey, i: nat)
    requires IsRun(cfg, states, events) && i < n < |states|
    requires events[i].Invalidate? && Covers(events[i].target, ck)
    ensures ck in states[n].cache.items ==>
      && states[n].cache.items[ck].key.owner == ck && states[n].cache.items[ck].key.asked > i
      && FromProvider(states, events, n, states[n].cache.items[ck].key)
    ensures WithinCap(states[n].cache, cfg.maxEntries)
  {
    RunKeepsInv(cfg, states, events, i);
    RunKeepsInv(cfg, states, events, n);
    RunKeepsRecords(cfg, states, events, i + 1, n);
    var k := |states[i].invalidations|;
    assert states[i + 1].invalidations[k] == Invalidation(events[i].target, i);
    assert states[n].invalidations[k] == Invalidation(events[i].target, i);
    if ck in states[n].cache.items {
      KeysComeFromProvider(cfg, states, events, n, states[n].cache.items[ck].key);
    }
  }

  /** Concurrent misses collapse: two unfinished lookups never serve the same
      (subject, kid) under the same generation. */
  lemma OneLookupPerKey(cfg: Config, states: seq<State>, events: seq<Event>, n: nat, f: nat, g: nat)
    requires IsRun(cfg, states, events) && n < |states|
    requires f < |states[n].flights| && g < |states[n].flights|
    requires !states[n].flights[f].phase.Delivered? && !states[n].flights[g].phase.Delivered?
    requires states[n].flights[f].ck == states[n].flights[g].ck && states[n].flights[f].gen == states[n].flights[g].gen
    ensures f == g
  {
    RunKeepsInv(cfg, states, events, n);
    assert FlightOk(states[n].invalidations, states[n].flights[f]);
    assert FlightOk(states[n].invalidations, states[n].flights[g]);
  }

  predicate FlightFailed(p: FlightPhase) {
    (p.Finished? || p.Delivered?) && p.out.Failed?
  }

  /** The provider refused lookup f before step n. */
  ghost predicate Refused(events: seq<Event>, n: nat, f: nat)
    requires n <= |events|
  {
    Answer(f, None) in events[..n]
  }

  ghost predicate RefusedFor(s: State, events: seq<Event>, n: nat, ck: CacheKey)
    requires n <= |events|
  {
    exists f :: 0 <= f < |s.flights| && s.flights[f].ck == ck && Refused(events, n, f)
  }

  lemma StepRefuses(cfg: Config, s: State, e: Event, s': State, f: nat)
    requires Next(cfg, s, e, s')
    ensures |s.flights| <= |s'.flights|
    ensures f < |s.flights| ==>
      (FlightFailed(s'.flights[f].phase) <==> FlightFailed(s.flights[f].phase) || e == Answer(f, None))
    ensures f >= |s.flights| ==> e != Answer(f, None) && (f < |s'.flights| ==> !FlightFailed(s'.flights[f].phase))
  {
  }

  /** A lookup fails exactly when the provider refuses it. */
  lemma {:induction false} FlightFailsByProvider(cfg: Config, states: seq<State>, events: seq<Event>, n: nat, f: nat)
    requires IsRun(cfg, states, events) && n < |states|
    ensures Refused(events, n, f) <==> f < |states[n].flights| && FlightFailed(states[n].flights[f].phase)
  {
    if n > 0 {
      assert Next(cfg, states[n - 1], events[n - 1], states[n]);
      assert events[..n] == events[..n - 1] + [events[n - 1]];
      hide Next, FlightFailed;
      FlightFailsByProvider(cfg, states, events, n - 1, f);
      StepRefuses(cfg, states[n - 1], events[n - 1], states[n], f);
    }
  }

  /** A verification fails only when its caller gave up or the provider refused the lookup it shared. */
  lemma {:induction false} FailureHasACause(cfg: Config, states: seq<State>, events: seq<Event>, n: nat, v: nat)
    requires IsRun(cfg, states, events) && n < |states| && v in states[n].verifications
    requires states[n].verifications[v].phase == Returned(Failed)
    ensures Cancel(v) in events[..n] || RefusedFor(states[n], events, n, states[n].verifications[v].ck)
  {
    var s, s' := states[n - 1], states[n];
    assert Next(cfg, s, events[n - 1], s');
    assert events[..n] == events[..n - 1] + [events[n - 1]];
    RunKeepsInv(cfg, states, events, n - 1);
    hide Next, Inv;
    StepFails(cfg, s, events[n - 1], s', v);
    FlightsKeepKeys(cfg, s, events[n - 1], s');
    if v in s.verifications && s.verifications[v].phase == Returned(Failed) {
      FailureHasACause(cfg, states, events, n - 1, v);
      if f :| 0 <= f < |s.flights| && s.flights[f].ck == s.verifications[v].ck && Refused(events, n - 1, f) {
        assert s'.flights[f].ck == s'.verifications[v].ck && Refused(events, n, f);
      }
    } else if events[n - 1] == Receive(v) {
      var f := s.verifications[v].phase.flight;
      FlightFailsByProvider(cfg, states, events, n - 1, f);
      assert s'.flights[f].ck == s'.verifications[v].ck && Refused(events, n, f);
    }
  }

  lemma FlightsKeepKeys(cfg: Config, s: State, e: Event, s': State)
    requires Next(cfg, s, e, s')
    ensures |s.flights| <= |s'.flights|
    ensures forall f :: 0 <= f < |s.flights| ==> s'.flights[f].ck == s.flights[f].ck
  {
  }

  lemma StepFails(cfg: Config, s: State, e: Event, s': State, v: nat)
    requires Inv(cfg, s) && Next(cfg, s, e, s') && v in s'.verifications
    requires s'.verifications[v].phase == Returned(Failed)
    ensures v in s.verifications && s'.verifications[v].ck == s.verifications[v].ck
    ensures
      || s.verifications[v].phase == Returned(Failed)
      || e == Cancel(v)
      || (e == Receive(v) && s.verifications[v].phase.Waiting?
          && var f := s.verifications[v].phase.flight;
             f < |s.flights| && s.flights[f].ck == s.verifications[v].ck && FlightFailed(s.flights[f].phase))
  {
    assert VerificationOk(s.invalidations, s.flights, s.step, s.verifications[v]);
  }

  /** What a verification has returned stands; giving up returns a failure. */
  lemma {:induction false} ReturnIsFinal(cfg: Config, states: seq<State>, events: seq<Event>, k: nat, n: nat, v: nat)
    requires IsRun(cfg, states, events) && k <= n < |states|
    requires v in states[k].verifications && states[k].verifications[v].phase.Returned?
    ensures v in states[n].verifications && states[n].verifications[v] == states[k].verifications[v]
    decreases n
  {
    hide Next;
    if k < n {
      ReturnIsFinal(cfg, states, events, k, n - 1, v);
      ReturnedStays(cfg, states[n - 1], events[n - 1], states[n], v);
    }
  }

  lemma ReturnedStays(cfg: Config, s: State, e: Event, s': State, v: nat)
    requires Next(cfg, s, e, s') && v in s.verifications && s.verifications[v].phase.Returned?
    ensures v in s'.verifications && s'.verifications[v] == s.verifications[v]
  {
  }

  lemma CancelReturns(cfg: Config, states: seq<State>, events: seq<Event>, k: nat, n: nat)
    requires IsRun(cfg, states, events) && k < n < |states| && events[k].Cancel?
    ensures events[k].v in states[n].verifications
    ensures states[n].verifications[events[k].v].phase == Returned(Failed)
  {
    assert Next(cfg, states[k], events[k], states[k + 1]);
    ReturnIsFinal(cfg, states, events, k + 1, n, events[k].v);
  }

  /** Some unfinished lookup serves ck under this generation. */
  ghost predicate InProgress(s: State, ck: CacheKey, gen: nat) {
    exists f :: 0 <= f < |s.flights| && Serves(s.flights[f], ck, gen)
  }

  predicate Serves(fl: Flight, ck: CacheKey, gen: nat) {
    fl.ck == ck && fl.gen == gen && !fl.phase.Delivered?
  }

  /** A verification that missed waits for a lookup of its key under the generation it read: the one
      in progress if there is one, else a new one. */
  lemma JoinShares(cfg: Config, states: seq<State>, events: seq<Event>, k: nat)
    requires IsRun(cfg, states, events) && k < |events| && events[k].Join?
    ensures events[k].v in states[k].verifications && states[k].verifications[events[k].v].phase.Fenced?
    ensures events[k].v in states[k + 1].verifications && states[k + 1].verifications[events[k].v].phase.Waiting?
    ensures
      var v, s, s' := events[k].v, states[k], states[k + 1];
      var ck, gen, f := s.verifications[v].ck, s.verifications[v].phase.gen, s'.verifications[v].phase.flight;
      && f < |s'.flights| && Serves(s'.flights[f], ck, gen)
      && |s'.flights| == |s.flights| + (if InProgress(s, ck, gen) then 0 else 1)
  {
    var v, s, s' := events[k].v, states[k], states[k + 1];
    assert Next(cfg, s, events[k], s');
    RunKeepsInv(cfg, states, events, k);
    var ck, gen := s.verifications[v].ck, s.verifications[v].phase.gen;
    var id := FK.Encode(ck.subject, ck.kid, gen);
    if id in s.group {
      var g := s.group[id];
      assert FlightOk(s.invalidations, s.flights[g]);
      SharedFlight(s.invalidations, ck, gen, s.flights[g]);
      assert Serves(s.flights[g], ck, gen);
    } else {
      forall f | 0 <= f < |s.flights|
        ensures !Serves(s.flights[f], ck, gen)
      {
        assert FlightOk(s.invalidations, s.flights[f]);
      }
    }
  }

  // Expiry

  function Elapsed(events: seq<Event>, n: nat): nat
    requires n <= |events|
  {
    if n == 0 then 0 else Elapsed(events, n - 1) + if events[n - 1].Tick? then events[n - 1].elapsed else 0
  }

  /** The clock shows the time that has passed. */
  lemma {:induction false} ClockIsElapsed(cfg: Config, states: seq<State>, events: seq<Event>, n: nat)
    requires IsRun(cfg, states, events) && n < |states|
    ensures states[n].clock == Elapsed(events, n)
  {
    if n > 0 {
      assert Next(cfg, states[n - 1], events[n - 1], states[n]);
      ClockIsElapsed(cfg, states, events, n - 1);
    }
  }

  /** Lookup f read the clock at step i, with r in hand, and r was filed with that reading plus the TTL. */
  predicate Timed(cfg: Config, states: seq<State>, events: seq<Event>, i: nat, f: nat, entry: Entry<KeyRead>)
    requires i < |events| < |states|
  {
    && events[i] == ReadClock(f) && f < |states[i].flights| && states[i].flights[f].phase == Answered(entry.key)
    && entry.expires == states[i].clock + cfg.ttl
  }

  ghost predicate WasTimed(cfg: Config, states: seq<State>, events: seq<Event>, n: nat, entry: Entry<KeyRead>)
    requires n <= |events| < |states|
  {
    exists i, f :: 0 <= i < n && Timed(cfg, states, events, i, f, entry)
  }

  lemma WasTimedLater(cfg: Config, states: seq<State>, events: seq<Event>, n: nat, entry: Entry<KeyRead>)
    requires n < |events| < |states| && WasTimed(cfg, states, events, n, entry)
    ensures WasTimed(cfg, states, events, n + 1, entry)
  {
    var i, f :| 0 <= i < n && Timed(cfg, states, events, i, f, entry);
    assert 0 <= i < n + 1;
  }

  lemma {:induction false} StoringWasTimed(cfg: Config, states: seq<State>, events: seq<Event>, n: nat, f: nat)
    requires IsRun(cfg, states, events) && n < |states| && f < |states[n].flights|
    requires states[n].flights[f].phase.Storing?
    ensures
      var p := states[n].flights[f].phase;
      WasTimed(cfg, states, events, n, Entry(p.read, p.now + cfg.ttl))
  {
    var s, p := states[n - 1], states[n].flights[f].phase;
    assert Next(cfg, s, events[n - 1], states[n]);
    hide Next;
    StepTimes(cfg, s, events[n - 1], states[n], f);
    if f < |s.flights| && s.flights[f].phase == p {
      StoringWasTimed(cfg, states, events, n - 1, f);
      WasTimedLater(cfg, states, events, n - 1, Entry(p.read, p.now + cfg.ttl));
    } else {
      assert Timed(cfg, states, events, n - 1, f, Entry(p.read, p.now + cfg.ttl));
    }
  }

  lemma StepTimes(cfg: Config, s: State, e: Event, s': State, f: nat)
    requires Next(cfg, s, e, s') && f < |s'.flights| && s'.flights[f].phase.Storing?
    ensures f < |s.flights|
    ensures
      || s.flights[f].phase == s'.flights[f].phase
      || (e == ReadClock(f) && s.flights[f].phase.Answered?
          && s'.flights[f].phase == Storing(s.flights[f].phase.read, s.clock))
  {
  }

  lemma EntryIsOldOrStored(cfg: Config, s: State, e: Event, s': State, ck: CacheKey)
    requires Next(cfg, s, e, s') && ck in s'.cache.items
    ensures
      || (ck in s.cache.items && s'.cache.items[ck] == s.cache.items[ck])
      || (e.Store? && e.f < |s.flights| && s.flights[e.f].phase.Storing?
          && s'.cache.items[ck] == Entry(s.flights[e.f].phase.read, s.flights[e.f].phase.now + cfg.ttl))
  {
  }

  /** An entry expires one TTL after the clock reading of the lookup that filed it. */
  lemma {:induction false} EntryWasTimed(cfg: Config, states: seq<State>, events: seq<Event>, n: nat, ck: CacheKey)
    requires IsRun(cfg, states, events) && n < |states| && ck in states[n].cache.items
    ensures WasTimed(cfg, states, events, n, states[n].cache.items[ck])
  {
    if n > 0 {
      hide WasTimed;
      EntryIsOldOrStored(cfg, states[n - 1], events[n - 1], states[n], ck);
      if ck in states[n - 1].cache.items && states[n].cache.items[ck] == states[n - 1].cache.items[ck] {
        EntryWasTimed(cfg, states, events, n - 1, ck);
      } else {
        StoringWasTimed(cfg, states, events, n - 1, events[n - 1].f);
      }
      WasTimedLater(cfg, states, events, n - 1, states[n].cache.items[ck]);
    }
  }

  /** What a verification looked up is what the cache held for its key at that step. */
  lemma {:induction false} LookupFound(cfg: Config, states: seq<State>, events: seq<Event>, n: nat, v: nat)
      returns (j: nat)
    requires IsRun(cfg, states, events) && n < |states|
    requires v in states[n].verifications && states[n].verifications[v].phase.LookedUp?
    ensures j < n && events[j] == Lookup(v)
    ensures
      var ver := states[n].verifications[v];
      ver.phase.found == if ver.ck in states[j].cache.items then Some(states[j].cache.items[ver.ck]) else None
  {
    assert Next(cfg, states[n - 1], events[n - 1], states[n]);
    if v in states[n - 1].verifications && states[n - 1].verifications[v].phase.LookedUp? {
      j := LookupFound(cfg, states, events, n - 1, v);
    } else {
      j := n - 1;
    }
  }

  /** The cache answers a verification exactly when it held an entry for its key at the lookup
      and the clock, read afterwards, is before the entry's expiry; and such a key was in the
      provider's answer less than one TTL ago. */
  lemma HitExactlyWhenLive(cfg: Config, states: seq<State>, events: seq<Event>, k: nat) returns (j: nat)
    requires IsRun(cfg, states, events) && k < |events| && events[k].CheckExpiry?
    ensures j < k && events[j] == Lookup(events[k].v)
    ensures events[k].v in states[k].verifications && events[k].v in states[k + 1].verifications
    ensures
      var ck, phase := states[k].verifications[events[k].v].ck, states[k + 1].verifications[events[k].v].phase;
      var items := states[j].cache.items;
      if ck in items && states[k].clock < items[ck].expires
      then phase == Returned(Key(items[ck].key)) && WasTimed(cfg, states, events, k, items[ck])
      else phase == Missed
  {
    assert Next(cfg, states[k], events[k], states[k + 1]);
    j := LookupFound(cfg, states, events, k, events[k].v);
    var ck := states[k].verifications[events[k].v].ck;
    if ck in states[j].cache.items {
      EntryWasTimed(cfg, states, events, j, ck);
      TimedStays(cfg, states, events, j, k, states[j].cache.items[ck]);
    }
  }

  /** The re-check of a lookup decides the same way, and asks the provider otherwise. */
  lemma RecheckHitsExactlyWhenLive(cfg: Config, states: seq<State>, events: seq<Event>, k: nat) returns (j: nat)
    requires IsRun(cfg, states, events) && k < |events| && events[k].RecheckExpiry?
    ensures j < k && events[j] == Recheck(events[k].f)
    ensures events[k].f < |states[k].flights| && events[k].f < |states[k + 1].flights|
    ensures
      var ck, phase := states[k].flights[events[k].f].ck, states[k + 1].flights[events[k].f].phase;
      var items := states[j].cache.items;
      if ck in items && states[k].clock < items[ck].expires
      then phase == Finished(Key(items[ck].key)) && WasTimed(cfg, states, events, k, items[ck])
      else phase == Asking(k)
  {
    assert Next(cfg, states[k], events[k], states[k + 1]);
    RunKeepsInv(cfg, states, events, k);
    j := RecheckFound(cfg, states, events, k, events[k].f);
    var ck := states[k].flights[events[k].f].ck;
    if ck in states[j].cache.items {
      EntryWasTimed(cfg, states, events, j, ck);
      TimedStays(cfg, states, events, j, k, states[j].cache.items[ck]);
    }
  }

  lemma {:induction false} RecheckFound(cfg: Config, states: seq<State>, events: seq<Event>, n: nat, f: nat)
      returns (j: nat)
    requires IsRun(cfg, states, events) && n < |states|
    requires f < |states[n].flights| && states[n].flights[f].phase.Rechecked?
    ensures j < n && events[j] == Recheck(f)
    ensures
      var fl := states[n].flights[f];
      fl.phase.found == if fl.ck in states[j].cache.items then Some(states[j].cache.items[fl.ck]) else None
  {
    assert Next(cfg, states[n - 1], events[n - 1], states[n]);
    hide Next;
    StepRechecks(cfg, states[n - 1], events[n - 1], states[n], f);
    if states[n - 1].flights[f] == states[n].flights[f] {
      j := RecheckFound(cfg, states, events, n - 1, f);
    } else {
      j := n - 1;
    }
  }

  lemma StepRechecks(cfg: Config, s: State, e: Event, s': State, f: nat)
    requires Next(cfg, s, e, s') && f < |s'.flights| && s'.flights[f].phase.Rechecked?
    ensures f < |s.flights|
    ensures
      || s'.flights[f] == s.flights[f]
      || (e == Recheck(f) && s'.flights[f].ck == s.flights[f].ck
          && var ck := s.flights[f].ck;
             s'.flights[f].phase.found == if ck in s.cache.items then Some(s.cache.items[ck]) else None)
  {
  }

  lemma TimedStays(cfg: Config, states: seq<State>, events: seq<Event>, n: nat, m: nat, entry: Entry<KeyRead>)
    requires n <= m <= |events| < |states| && WasTimed(cfg, states, events, n, entry)
    ensures WasTimed(cfg, states, events, m, entry)
  {
    var i, f :| 0 <= i < n && Timed(cfg, states, events, i, f, entry);
    assert 0 <= i < m;
  }

  // The protocol at work

  ghost predicate Ends(cfg: Config, states: seq<State>, events: seq<Event>, s: State) {
    IsRun(cfg, states, events) && states[|events|] == s
  }

  lemma Extend(cfg: Config, states: seq<State>, events: seq<Event>, s: State, e: Event)
      returns (states': seq<State>, events': seq<Event>, s': State)
    requires Ends(cfg, states, events, s) && Enabled(cfg, s, e)
    ensures s' == Effect(cfg, s, e).(step := s.step + 1) && Ends(cfg, states', events', s')
  {
    s' := Effect(cfg, s, e).(step := s.step + 1);
    states', events' := states + [s'], events + [e];
  }

  /** A first verification misses and starts a lookup. */
  lemma FirstJoins(cfg: Config, ck: CacheKey) returns (states: seq<State>, events: seq<Event>, s: State)
    ensures Ends(cfg, states, events, s) && s.step == 5 && s.clock == 0 && s.cache == Cache(map[], 0)
    ensures s.verifications == map[0 := Verification(ck, 0, Waiting(0))]
    ensures |s.flights| == 1 && s.flights[0].ck == ck && s.flights[0].gen == 0 && s.flights[0].phase == Checking
  {
    states, events, s := [Init()], [], Init();
    hide Ends;
    states, events, s := Extend(cfg, states, events, s, Begin(0, ck));
    states, events, s := Extend(cfg, states, events, s, Lookup(0));
    states, events, s := Extend(cfg, states, events, s, CheckExpiry(0));
    states, events, s := Extend(cfg, states, events, s, ReadGeneration(0));
    states, events, s := Extend(cfg, states, events, s, Join(0));
  }

  /** The lookup misses too, and the provider answers. */
  lemma FirstAsks(cfg: Config, ck: CacheKey, m: int) returns (states: seq<State>, events: seq<Event>, s: State)
    ensures Ends(cfg, states, events, s) && s.step == 8 && s.clock == 0 && s.cache == Cache(map[], 0)
    ensures s.verifications == map[0 := Verification(ck, 0, Waiting(0))]
    ensures |s.flights| == 1 && s.flights[0].ck == ck && s.flights[0].gen == 0
    ensures s.flights[0].phase == Answered(KeyRead(m, ck, 6))
  {
    states, events, s := FirstJoins(cfg, ck);
    hide Ends;
    states, events, s := Extend(cfg, states, events, s, Recheck(0));
    states, events, s := Extend(cfg, states, events, s, RecheckExpiry(0));
    states, events, s := Extend(cfg, states, events, s, Answer(0, Some(m)));
  }

  /** The answer is stored. */
  lemma FirstStores(cfg: Config, ck: CacheKey, m: int) returns (states: seq<State>, events: seq<Event>, s: State)
    requires cfg.ttl > 0
    ensures Ends(cfg, states, events, s) && s.clock == 0 && |s.flights| == 1 && s.step == 10
    ensures s.cache == Cache(map[ck := Entry(KeyRead(m, ck, 6), cfg.ttl)], 0)
    ensures s.verifications == map[0 := Verification(ck, 0, Waiting(0))]
    ensures s.flights[0].phase == Finished(Key(KeyRead(m, ck, 6)))
  {
    states, events, s := FirstAsks(cfg, ck, m);
    hide Ends;
    states, events, s := Extend(cfg, states, events, s, ReadClock(0));
    var after := Cache(map[ck := Entry(KeyRead(m, ck, 6), cfg.ttl)], 0);
    assert MakesRoom(s.cache.items, 0, cfg.maxEntries, s.cache.items);
    states, events, s := Extend(cfg, states, events, s, Store(0, after));
  }

  /** And returned. */
  lemma FirstReturns(cfg: Config, ck: CacheKey, m: int) returns (states: seq<State>, events: seq<Event>, s: State)
    requires cfg.ttl > 0
    ensures Ends(cfg, states, events, s) && s.clock == 0 && |s.flights| == 1 && s.step == 12
    ensures s.cache == Cache(map[ck := Entry(KeyRead(m, ck, 6), cfg.ttl)], 0)
    ensures s.verifications == map[0 := Verification(ck, 0, Returned(Key(KeyRead(m, ck, 6))))]
  {
    states, events, s := FirstStores(cfg, ck, m);
    hide Ends;
    states, events, s := Extend(cfg, states, events, s, Deliver(0));
    states, events, s := Extend(cfg, states, events, s, Receive(0));
  }

  /** For every key and every answer of the provider: the first verification returns it, and
      while the TTL lasts the next one is served with it from the cache, without a new lookup. */
  lemma FetchedThenCached(cfg: Config, ck: CacheKey, m: int)
      returns (states: seq<State>, events: seq<Event>, s: State)
    requires cfg.ttl > 0
    ensures Ends(cfg, states, events, s) && |s.flights| == 1 && {0, 1} <= s.verifications.Keys
    ensures s.verifications[0].phase == s.verifications[1].phase == Returned(Key(KeyRead(m, ck, 6)))
  {
    states, events, s := FirstReturns(cfg, ck, m);
    hide Ends;
    states, events, s := Extend(cfg, states, events, s, Begin(1, ck));
    states, events, s := Extend(cfg, states, events, s, Lookup(1));
    states, events, s := Extend(cfg, states, events, s, CheckExpiry(1));
  }

  /** Once the TTL has passed, or the key or its subject was invalidated, the next verification
      misses. */
  lemma StaleIsMissed(cfg: Config, ck: CacheKey, m: int, e: Event)
      returns (states: seq<State>, events: seq<Event>, s: State)
    requires cfg.ttl > 0
    requires e == Tick(cfg.ttl) || e == Invalidate(OneKey(ck)) || e == Invalidate(WholeSubject(ck.subject))
    ensures Ends(cfg, states, events, s) && 1 in s.verifications
    ensures s.verifications[1] == Verification(ck, 13, Missed)
  {
    states, events, s := FirstReturns(cfg, ck, m);
    hide Ends;
    states, events, s := Extend(cfg, states, events, s, e);
    states, events, s := Extend(cfg, states, events, s, Begin(1, ck));
    states, events, s := Extend(cfg, states, events, s, Lookup(1));
    states, events, s := Extend(cfg, states, events, s, CheckExpiry(1));
  }

  /** An invalidation covers exactly the keys it drops, from whatever cache. */
  lemma CoversWhatItDrops(cache: Cache<KeyRead>, t: Target, ck: CacheKey)
    requires ck in cache.items
    ensures Covers(t, ck) <==> ck !in Drop(cache, t).items
  {
  }

  // Nobody is stuck

  lemma {:induction false} Shrinks(items: map<CacheKey, Entry<KeyRead>>, size: nat)
      returns (kept: map<CacheKey, Entry<KeyRead>>)
    requires size <= |items|
    ensures SubMap(kept, items) && |kept| == size
    decreases |items|
  {
    if size == |items| {
      kept := items;
    } else {
      var k :| k in items.Keys;
      var rest := items - {k};
      assert rest.Keys == items.Keys - {k};
      kept := Shrinks(rest, size);
    }
  }

  lemma RoomCanBeMade(items: map<CacheKey, Entry<KeyRead>>, now: int, maxEntries: int)
      returns (kept: map<CacheKey, Entry<KeyRead>>)
    ensures MakesRoom(items, now, maxEntries, kept)
  {
    kept := items;
    if maxEntries > 0 && |items| >= maxEntries {
      kept := Live(items, now);
      if |kept| >= maxEntries {
        kept := Shrinks(kept, maxEntries - 1);
      }
    }
  }

  ghost predicate FlightCanMove(cfg: Config, s: State, f: nat) {
    Enabled(cfg, s, Recheck(f)) || Enabled(cfg, s, RecheckExpiry(f)) || Enabled(cfg, s, Answer(f, None))
      || Enabled(cfg, s, ReadClock(f)) || (exists after :: Enabled(cfg, s, Store(f, after)))
      || Enabled(cfg, s, Deliver(f))
  }

  lemma LookupNeverStuck(cfg: Config, s: State, f: nat)
    requires f < |s.flights| && !s.flights[f].phase.Delivered?
    ensures FlightCanMove(cfg, s, f)
  {
    if s.flights[f].phase.Storing? {
      var fl, after := s.flights[f], s.cache;
      if cfg.ttl > 0 && s.cache.gen == fl.gen {
        var kept := RoomCanBeMade(s.cache.items, fl.phase.now, cfg.maxEntries);
        after := Cache(kept[fl.ck := Entry(fl.phase.read, fl.phase.now + cfg.ttl)], s.cache.gen);
      }
      assert Enabled(cfg, s, Store(f, after));
    }
  }

  /** A verification that has not returned has a step to take; while it waits for a lookup it may give
      up, and it can receive the result or the lookup can go on. */
  lemma VerificationNeverStuck(cfg: Config, states: seq<State>, events: seq<Event>, n: nat, v: nat)
    requires IsRun(cfg, states, events) && n < |states|
    requires v in states[n].verifications && !states[n].verifications[v].phase.Returned?
    ensures
      var s := states[n];
      || Enabled(cfg, s, Lookup(v)) || Enabled(cfg, s, CheckExpiry(v)) || Enabled(cfg, s, ReadGeneration(v))
      || Enabled(cfg, s, Join(v))
      || (s.verifications[v].phase.Waiting? && Enabled(cfg, s, Cancel(v))
          && (Enabled(cfg, s, Receive(v)) || FlightCanMove(cfg, s, s.verifications[v].phase.flight)))
  {
    var s := states[n];
    RunKeepsInv(cfg, states, events, n);
    assert VerificationOk(s.invalidations, s.flights, s.step, s.verifications[v]);
    if s.verifications[v].phase.Waiting? && !s.flights[s.verifications[v].phase.flight].phase.Delivered? {
      LookupNeverStuck(cfg, s, s.verifications[v].phase.flight);
    }
  }
}
