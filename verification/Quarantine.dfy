/**
 The quarantine store: a file whose load failed is recorded with its SHA-256 and
 skipped until its bytes change. The class follows the store and one load attempt
 from end to end; the model below it interleaves any number of attempts with the
 host's own quarantining and with Close.
 */
module Quarantine {
  import opened Wrappers

  type Hash = string

  const NO_HASH: Hash := "" // recorded when the file could not be read

  ghost predicate Quarantined(q: map<string, Hash>, file: string, hash: Hash) {
    file in q && q[file] == hash
  }

  /** The re-check under the write lock: drop the entry unless it is for this hash. */
  function DropOther(q: map<string, Hash>, file: string, hash: Hash): map<string, Hash> {
    if file in q && q[file] != hash then q - {file} else q
  }

  /** Steps of a load that touch untrusted bytes. */
  datatype Stage = CheckSignature | OpenFile | RunInit

  /** plugin.Open runs package initialisers of the plugin, whose panic nothing recovers. */
  datatype OpenResult = Opened | SnapshotFailed | OpenFailed | OpenPanicked

  datatype Inspection = Fit | BadDescriptor | WrongHostMajor | BadDepInfo | NameTaken

  datatype InitResult = InitDone | BadInitType | InitFailed

  /** What the environment answers during one load attempt. */
  datatype Environment = Environment(
    read: Option<Hash>, signed: bool, opening: OpenResult, inspection: Inspection, init: InitResult, registers: bool)

  /** Panicked: the call does not return. */
  datatype Outcome = Unreadable | Refused | Condemned | Abandoned | Loaded | Panicked

  class Store {
    var quarantine: map<string, Hash>

    constructor ()
      ensures quarantine == map[]
    {
      quarantine := map[];
    }

    method IsQuarantined(file: string, hash: Hash) returns (r: bool)
      modifies this
      ensures r <==> Quarantined(old(quarantine), file, hash)
      ensures quarantine == if r then old(quarantine) else old(quarantine) - {file}
    {
      if file !in quarantine {
        return false;
      }
      if quarantine[file] == hash {
        return true;
      }
      if file in quarantine && quarantine[file] != hash {
        quarantine := quarantine - {file};
      }
      return false;
    }

    method AddQuarantine(file: string, hash: Hash)
      modifies this
      ensures quarantine == old(quarantine)[file := hash]
    {
      quarantine := quarantine[file := hash];
    }

    /** loadPlugin without interference. Nothing of a refused file runs; no step runs
        unless the one before it succeeded; and the file ends up quarantined with the
        bytes that were read exactly when those bytes are to blame. */
    method LoadPlugin(file: string, env: Environment) returns (out: Outcome, ran: set<Stage>)
      modifies this
      ensures out.Unreadable? <==> env.read.None?
      ensures out.Refused? <==> env.read.Some? && Quarantined(old(quarantine), file, env.read.value)
      ensures out.Unreadable? || out.Refused? ==> ran == {}
      ensures !out.Unreadable? && !out.Refused? ==> CheckSignature in ran
      ensures OpenFile in ran <==> CheckSignature in ran && env.signed && !env.opening.SnapshotFailed?
      ensures RunInit in ran <==>
        OpenFile in ran && env.opening.Opened? && env.inspection.Fit? && !env.init.BadInitType?
      ensures out.Loaded? <==> RunInit in ran && env.init.InitDone? && env.registers
      ensures out.Condemned? <==>
        || (CheckSignature in ran && !env.signed)
        || (OpenFile in ran && env.opening.OpenFailed?)
        || (OpenFile in ran && env.opening.Opened?
            && (env.inspection.BadDescriptor? || env.inspection.WrongHostMajor?
                || (env.inspection.Fit? && !env.init.InitDone?)))
      ensures out.Panicked? <==> OpenFile in ran && env.opening.OpenPanicked?
      ensures env.read.None? ==> Quarantined(quarantine, file, NO_HASH)
      ensures env.read.Some? ==> (Quarantined(quarantine, file, env.read.value) <==> out.Refused? || out.Condemned?)
      ensures env.read.Some? && !Quarantined(quarantine, file, env.read.value) ==> file !in quarantine
      ensures quarantine - {file} == old(quarantine) - {file}
    {
      ran := {};
      if env.read.None? {
        AddQuarantine(file, NO_HASH);
        return Unreadable, ran;
      }
      var hash := env.read.value;
      var skip := IsQuarantined(file, hash);
      if skip {
        return Refused, ran;
      }
      ran := ran + {CheckSignature};
      if !env.signed {
        AddQuarantine(file, hash);
        return Condemned, ran;
      }
      if env.opening.SnapshotFailed? {
        return Abandoned, ran;
      }
      ran := ran + {OpenFile};
      if env.opening.OpenPanicked? {
        return Panicked, ran;
      }
      if env.opening.OpenFailed? || env.inspection.BadDescriptor? || env.inspection.WrongHostMajor? {
        AddQuarantine(file, hash);
        return Condemned, ran;
      }
      if !env.inspection.Fit? {
        return Abandoned, ran;
      }
      if env.init.BadInitType? {
        AddQuarantine(file, hash);
        return Condemned, ran;
      }
      ran := ran + {RunInit};
      if env.init.InitFailed? {
        AddQuarantine(file, hash);
        return Condemned, ran;
      }
      return if env.registers then Loaded else Abandoned, ran;
    }

    method Clear()
      modifies this
      ensures quarantine == map[]
    {
      quarantine := map[];
    }
  }

  datatype Phase =
    | Hashed      // bytes read
    | Mismatched  // the store held another hash; its entry is about to be dropped
    | Cleared     // free to go on
    | Verified
    | Open
    | Inspected
    | Ready       // about to register
    | Registered
    | Taken       // removed from the registry by the host's Quarantine, addQuarantine pending
    | Failing     // addQuarantine pending
    | Skipped
    | Ended

  datatype Attempt = Attempt(file: string, hash: Hash, phase: Phase, ran: set<Stage>, signed: bool)

  datatype State = State(store: map<string, Hash>, attempts: map<nat, Attempt>)

  datatype Event =
    | Read(a: nat, file: string, hash: Hash)
    | ReadFails(a: nat, file: string)
    | Check(a: nat)
    | DropEntry(a: nat)
    | Verify(a: nat, ok: bool)
    | OpenSnapshot(a: nat, opening: OpenResult)
    | Inspect(a: nat, inspection: Inspection)
    | Initialize(a: nat, init: InitResult)
    | Register(a: nat, ok: bool)
    | Unload(a: nat)        // by name, or in Close's loop
    | HostTake(a: nat)
    | HostQuarantine(a: nat)
    | Condemn(a: nat)
    | ClearAll

  function Start(): State {
    State(map[], map[])
  }

  predicate At(s: State, a: nat, phase: Phase) {
    a in s.attempts && s.attempts[a].phase == phase
  }

  predicate Enabled(s: State, e: Event) {
    match e
    case Read(a, _, hash) => a !in s.attempts && hash != NO_HASH
    case ReadFails(a, _) => a !in s.attempts
    case Check(a) => At(s, a, Hashed)
    case DropEntry(a) => At(s, a, Mismatched)
    case Verify(a, _) => At(s, a, Cleared)
    case OpenSnapshot(a, _) => At(s, a, Verified)
    case Inspect(a, _) => At(s, a, Open)
    case Initialize(a, _) => At(s, a, Inspected)
    case Register(a, _) => At(s, a, Ready)
    case Unload(a) => At(s, a, Registered)
    case HostTake(a) => At(s, a, Registered)
    case HostQuarantine(a) => At(s, a, Taken)
    case Condemn(a) => At(s, a, Failing)
    case ClearAll => true
  }

  function Move(s: State, a: nat, phase: Phase, ran: set<Stage>): State
    requires a in s.attempts
  {
    s.(attempts := s.attempts[a := s.attempts[a].(phase := phase, ran := s.attempts[a].ran + ran)])
  }

  /** addQuarantine for the attempt's file and bytes. */
  function Record(s: State, a: nat): State
    requires a in s.attempts
  {
    Move(s, a, Ended, {}).(store := s.store[s.attempts[a].file := s.attempts[a].hash])
  }

  function Effect(s: State, e: Event): State
    requires Enabled(s, e)
  {
    match e
    case Read(a, file, hash) => s.(attempts := s.attempts[a := Attempt(file, hash, Hashed, {}, false)])
    case ReadFails(a, file) => s.(attempts := s.attempts[a := Attempt(file, NO_HASH, Failing, {}, false)])
    case Check(a) =>
      var at := s.attempts[a];
      var phase := if at.file !in s.store then Cleared else if s.store[at.file] == at.hash then Skipped else Mismatched;
      Move(s, a, phase, {})
    case DropEntry(a) => Move(s, a, Cleared, {}).(store := DropOther(s.store, s.attempts[a].file, s.attempts[a].hash))
    case Verify(a, ok) =>
      var s' := Move(s, a, if ok then Verified else Failing, {CheckSignature});
      s'.(attempts := s'.attempts[a := s'.attempts[a].(signed := ok)])
    case OpenSnapshot(a, opening) =>
      (match opening
       case SnapshotFailed => Move(s, a, Ended, {})
       case OpenFailed => Move(s, a, Failing, {OpenFile})
       case OpenPanicked => Move(s, a, Ended, {OpenFile})
       case Opened => Move(s, a, Open, {OpenFile}))
    case Inspect(a, i) =>
      var blamed := i.BadDescriptor? || i.WrongHostMajor?;
      Move(s, a, if i.Fit? then Inspected else if blamed then Failing else Ended, {})
    case Initialize(a, init) =>
      (match init
       case BadInitType => Move(s, a, Failing, {})
       case InitFailed => Move(s, a, Failing, {RunInit})
       case InitDone => Move(s, a, Ready, {RunInit}))
    case Register(a, ok) => Move(s, a, if ok then Registered else Ended, {})
    case Unload(a) => Move(s, a, Ended, {})
    case HostTake(a) => Move(s, a, Taken, {})
    case HostQuarantine(a) => Record(s, a)
    case Condemn(a) => Record(s, a)
    case ClearAll => s.(store := map[])
  }

  predicate Next(s: State, e: Event, s': State) {
    Enabled(s, e) && s' == Effect(s, e)
  }

  ghost predicate IsRun(states: seq<State>, events: seq<Event>) {
    && |states| == |events| + 1
    && states[0] == Start()
    && forall i :: 0 <= i < |events| ==> Next(states[i], events[i], states[i + 1])
  }

  /** The events that lift the quarantine of `file` with `hash`: an attempt that read
      other bytes dropping the entry or recording its own failure, an unreadable file,
      the host quarantining a plugin loaded from other bytes of the file, and Close. */
  predicate Lifts(s: State, e: Event, file: string, hash: Hash) {
    match e
    case DropEntry(a) => OtherBytes(s, a, file, hash)
    case Condemn(a) => OtherBytes(s, a, file, hash)
    case HostQuarantine(a) => OtherBytes(s, a, file, hash)
    case ClearAll => true
    case _ => false
  }

  predicate OtherBytes(s: State, a: nat, file: string, hash: Hash) {
    a in s.attempts && s.attempts[a].file == file && s.attempts[a].hash != hash
  }

  ghost predicate NoLift(states: seq<State>, events: seq<Event>, i: nat, n: nat, file: string, hash: Hash)
    requires n <= |events| <= |states|
  {
    forall k :: i <= k < n ==> !Lifts(states[k], events[k], file, hash)
  }

  lemma LiftsExactly(s: State, e: Event, s': State, file: string, hash: Hash)
    requires Next(s, e, s') && Quarantined(s.store, file, hash)
    ensures Quarantined(s'.store, file, hash) <==> !Lifts(s, e, file, hash)
  {
  }

  lemma {:induction false} StaysQuarantined(states: seq<State>, events: seq<Event>, i: nat, n: nat, file: string,
      hash: Hash)
    requires IsRun(states, events) && i <= n < |states|
    requires Quarantined(states[i].store, file, hash) && NoLift(states, events, i, n, file, hash)
    ensures Quarantined(states[n].store, file, hash)
    decreases n
  {
    if i < n {
      StaysQuarantined(states, events, i, n - 1, file, hash);
      LiftsExactly(states[n - 1], events[n - 1], states[n], file, hash);
    }
  }

  /** An attempt that has touched nothing and never will unless its check lets it. */
  predicate Idle(at: Attempt) {
    (at.phase.Hashed? || at.phase.Skipped?) && at.ran == {}
  }

  lemma IdleStays(s: State, e: Event, s': State, a: nat)
    requires Next(s, e, s') && a in s.attempts && Idle(s.attempts[a])
    requires Quarantined(s.store, s.attempts[a].file, s.attempts[a].hash)
    ensures a in s'.attempts && Idle(s'.attempts[a]) && !Touches(e, a)
    ensures s'.attempts[a].file == s.attempts[a].file && s'.attempts[a].hash == s.attempts[a].hash
  {
  }

  lemma OnlyReadsStart(s: State, e: Event, s': State, a: nat)
    requires Next(s, e, s') && a in s'.attempts
    ensures a in s.attempts ==> s'.attempts[a].file == s.attempts[a].file && s'.attempts[a].hash == s.attempts[a].hash
    ensures a !in s.attempts && s'.attempts[a].hash != NO_HASH ==> Idle(s'.attempts[a])
  {
  }

  /** While a file's bytes stay quarantined, no attempt that reads those bytes gets past the
      check: its signature is not verified, it is not opened and its Init does not run. */
  lemma {:induction false} QuarantinedNeverRuns(
      states: seq<State>, events: seq<Event>, i: nat, n: nat, a: nat, file: string, hash: Hash)
    requires IsRun(states, events) && i <= n < |states| && hash != NO_HASH
    requires Quarantined(states[i].store, file, hash) && NoLift(states, events, i, n, file, hash)
    requires a !in states[i].attempts && a in states[n].attempts
    requires states[n].attempts[a].file == file && states[n].attempts[a].hash == hash
    ensures Idle(states[n].attempts[a])
    ensures forall k :: i <= k < n ==> !Touches(events[k], a)
    decreases n
  {
    hide Next, Idle, Touches, Lifts;
    if i < n {
      OnlyReadsStart(states[n - 1], events[n - 1], states[n], a);
      if a in states[n - 1].attempts {
        QuarantinedNeverRuns(states, events, i, n - 1, a, file, hash);
        StaysQuarantined(states, events, i, n - 1, file, hash);
        IdleStays(states[n - 1], events[n - 1], states[n], a);
      } else {
        UnknownIsUntouched(states, events, i, n - 1, a);
      }
    }
  }

  /** Attempt a's file is verified, opened, inspected or initialised. */
  predicate Touches(e: Event, a: nat) {
    (e.Verify? || e.OpenSnapshot? || e.Inspect? || e.Initialize?) && e.a == a
  }

  lemma {:induction false} UnknownIsUntouched(states: seq<State>, events: seq<Event>, i: nat, n: nat, a: nat)
    requires IsRun(states, events) && i <= n < |events| && a !in states[n].attempts
    ensures forall k :: i <= k <= n ==> !Touches(events[k], a)
    decreases n
  {
    assert Next(states[n], events[n], states[n + 1]);
    if i < n {
      assert Next(states[n - 1], events[n - 1], states[n]);
      UnknownIsUntouched(states, events, i, n - 1, a);
    }
  }

  /** A check refuses exactly the bytes that are quarantined at that moment; a refused
      attempt stays refused whatever happens later. */
  lemma CheckDecides(s: State, a: nat, s': State)
    requires Next(s, Check(a), s')
    ensures s'.attempts[a].phase.Skipped? <==> Quarantined(s.store, s.attempts[a].file, s.attempts[a].hash)
    ensures s'.store == s.store
  {
  }

  lemma {:induction false} RefusalIsFinal(states: seq<State>, events: seq<Event>, i: nat, n: nat, a: nat)
    requires IsRun(states, events) && i <= n < |states| && At(states[i], a, Skipped)
    ensures a in states[n].attempts && states[n].attempts[a] == states[i].attempts[a]
    decreases n
  {
    if i < n {
      RefusalIsFinal(states, events, i, n - 1, a);
      assert Next(states[n - 1], events[n - 1], states[n]);
    }
  }

  /** What an attempt has run by the time it is in a phase. */
  predicate InOrder(at: Attempt) {
    && (OpenFile in at.ran ==> CheckSignature in at.ran && at.signed)
    && (RunInit in at.ran ==> OpenFile in at.ran)
    && (at.phase.Verified? ==> CheckSignature in at.ran && at.signed)
    && (at.phase.Open? || at.phase.Inspected? ==> OpenFile in at.ran)
    && (at.phase.Ready? || at.phase.Registered? || at.phase.Taken? ==> RunInit in at.ran)
    && (at.phase.Hashed? || at.phase.Mismatched? || at.phase.Cleared? || at.phase.Skipped? ==> at.ran == {})
    && (at.hash == NO_HASH ==> at.ran == {} && (at.phase.Failing? || at.phase.Ended?))
  }

  ghost predicate Inv(s: State) {
    forall a :: a in s.attempts ==> InOrder(s.attempts[a])
  }

  lemma {:induction false} RunKeepsInv(states: seq<State>, events: seq<Event>, n: nat)
    requires IsRun(states, events) && n < |states|
    ensures Inv(states[n])
  {
    if n > 0 {
      RunKeepsInv(states, events, n - 1);
      assert Next(states[n - 1], events[n - 1], states[n]);
    }
  }

  // What an attempt has been through, read off the run

  predicate Unused(ev: seq<Event>, a: nat) {
    forall e :: e in ev ==> e.ClearAll? || e.a != a
  }

  /** The stages that ran are those of the attempt's events. */
  predicate RanOk(ev: seq<Event>, a: nat, at: Attempt) {
    && (CheckSignature in at.ran <==> Verify(a, true) in ev || Verify(a, false) in ev)
    && (at.signed <==> Verify(a, true) in ev)
    && (OpenFile in at.ran <==>
          OpenSnapshot(a, OpenFailed) in ev || OpenSnapshot(a, OpenPanicked) in ev || OpenSnapshot(a, Opened) in ev)
    && (RunInit in at.ran <==> Initialize(a, InitFailed) in ev || Initialize(a, InitDone) in ev)
  }

  /** A phase is reached by the success of the step before it, and left when the next one comes. */
  predicate PhaseOk(ev: seq<Event>, a: nat, at: Attempt) {
    match at.phase
    case Hashed => Check(a) !in ev
    case Cleared => Check(a) in ev
    case Verified => Verify(a, true) in ev
    case Open => OpenSnapshot(a, Opened) in ev
    case Inspected => Inspect(a, Fit) in ev
    case Ready => Initialize(a, InitDone) in ev
    case Registered => Register(a, true) in ev && Unload(a) !in ev && HostTake(a) !in ev
    case Taken => HostTake(a) in ev
    case Mismatched => Check(a) in ev
    case Skipped => Check(a) in ev && Verify(a, true) !in ev && Verify(a, false) !in ev
    case _ => true
  }

  /** What each phase, and everything before registration, has not seen yet. */
  predicate NotYet(ev: seq<Event>, a: nat, at: Attempt) {
    && (at.phase.Hashed? || at.phase.Mismatched? || at.phase.Cleared? ==>
          Verify(a, true) !in ev && Verify(a, false) !in ev)
    && (!at.phase.Registered? && !at.phase.Taken? && !at.phase.Ended? ==> Unload(a) !in ev && HostTake(a) !in ev)
  }

  predicate Follows(ev: seq<Event>, a: nat, at: Attempt) {
    RanOk(ev, a, at) && PhaseOk(ev, a, at) && NotYet(ev, a, at)
  }

  lemma NewFollows(ev: seq<Event>, s: State, e: Event, s': State, a: nat)
    requires Next(s, e, s') && a !in s.attempts && Unused(ev, a)
    ensures if a in s'.attempts then Follows(ev + [e], a, s'.attempts[a]) else Unused(ev + [e], a)
  {
  }

  lemma OthersFollow(ev: seq<Event>, s: State, e: Event, s': State, a: nat)
    requires Next(s, e, s') && a in s.attempts && Follows(ev, a, s.attempts[a]) && (e.ClearAll? || e.a != a)
    ensures a in s'.attempts && Follows(ev + [e], a, s'.attempts[a])
  {
    assert s'.attempts[a] == s.attempts[a];
  }

  lemma RanFollows(ev: seq<Event>, s: State, e: Event, s': State, a: nat)
    requires Next(s, e, s') && a in s.attempts && !e.ClearAll? && e.a == a
    requires RanOk(ev, a, s.attempts[a]) && NotYet(ev, a, s.attempts[a])
    ensures a in s'.attempts && RanOk(ev + [e], a, s'.attempts[a])
  {
  }

  lemma PhaseFollows(ev: seq<Event>, s: State, e: Event, s': State, a: nat)
    requires Next(s, e, s') && a in s.attempts && !e.ClearAll? && e.a == a
    requires PhaseOk(ev, a, s.attempts[a]) && NotYet(ev, a, s.attempts[a])
    ensures a in s'.attempts && PhaseOk(ev + [e], a, s'.attempts[a]) && NotYet(ev + [e], a, s'.attempts[a])
  {
  }

  lemma StillFollows(ev: seq<Event>, s: State, e: Event, s': State, a: nat)
    requires Next(s, e, s') && a in s.attempts && Follows(ev, a, s.attempts[a])
    ensures a in s'.attempts && Follows(ev + [e], a, s'.attempts[a])
  {
    hide Next, RanOk, PhaseOk, NotYet;
    if e.ClearAll? || e.a != a {
      OthersFollow(ev, s, e, s', a);
    } else {
      RanFollows(ev, s, e, s', a);
      PhaseFollows(ev, s, e, s', a);
    }
  }

  lemma {:induction false} AttemptIsHistory(states: seq<State>, events: seq<Event>, n: nat, a: nat)
    requires IsRun(states, events) && n < |states|
    ensures if a in states[n].attempts then Follows(events[..n], a, states[n].attempts[a]) else Unused(events[..n], a)
  {
    if n > 0 {
      assert Next(states[n - 1], events[n - 1], states[n]);
      assert events[..n] == events[..n - 1] + [events[n - 1]];
      hide Next, Follows, Unused;
      AttemptIsHistory(states, events, n - 1, a);
      if a in states[n - 1].attempts {
        StillFollows(events[..n - 1], states[n - 1], events[n - 1], states[n], a);
      } else {
        NewFollows(events[..n - 1], states[n - 1], events[n - 1], states[n], a);
      }
    }
  }

  /** Every stage of a load follows the success of the one before, all for the same attempt. */
  lemma StageNeedsSuccess(states: seq<State>, events: seq<Event>, n: nat)
    requires IsRun(states, events) && n < |events| && !events[n].ClearAll?
    ensures
      var e, before, a := events[n], events[..n], events[n].a;
      && (e.Verify? ==> Check(a) in before)
      && (e.OpenSnapshot? ==> Verify(a, true) in before)
      && (e.Inspect? ==> OpenSnapshot(a, Opened) in before)
      && (e.Initialize? ==> Inspect(a, Fit) in before)
      && (e.Register? ==> Initialize(a, InitDone) in before)
      && (e.Unload? || e.HostTake? ==> Register(a, true) in before && Unload(a) !in before && HostTake(a) !in before)
      && (e.HostQuarantine? ==> HostTake(a) in before)
  {
    assert Next(states[n], events[n], states[n + 1]);
    AttemptIsHistory(states, events, n, events[n].a);
  }

  /** Plugin code is opened or initialised only in attempts whose signature was found good before,
      and an unreadable file never gets as far as the check. */
  lemma PluginCodeIsSigned(states: seq<State>, events: seq<Event>, n: nat, a: nat)
    requires IsRun(states, events) && n < |states| && a in states[n].attempts
    ensures OpenFile in states[n].attempts[a].ran || RunInit in states[n].attempts[a].ran ==>
      Verify(a, true) in events[..n]
    ensures states[n].attempts[a].hash == NO_HASH ==> states[n].attempts[a].ran == {}
  {
    RunKeepsInv(states, events, n);
    AttemptIsHistory(states, events, n, a);
  }

  /** An entry without a hash, left by a failed read, never refuses a later attempt. */
  lemma UnreadableIsRetried(states: seq<State>, events: seq<Event>, n: nat, a: nat)
    requires IsRun(states, events) && n < |events| && events[n] == Check(a)
    requires a in states[n].attempts && Quarantined(states[n].store, states[n].attempts[a].file, NO_HASH)
    ensures At(states[n + 1], a, Mismatched)
  {
    RunKeepsInv(states, events, n);
    assert Next(states[n], events[n], states[n + 1]);
  }

  /** Where an entry came from: the last event that wrote it is a failure of an attempt that read
      exactly these bytes, a failed read, or the host quarantining a plugin loaded from them. */
  predicate Records(s: State, e: Event, file: string, hash: Hash) {
    match e
    case Condemn(a) => a in s.attempts && s.attempts[a].file == file && s.attempts[a].hash == hash
    case HostQuarantine(a) =>
      a in s.attempts && s.attempts[a].file == file && s.attempts[a].hash == hash && RunInit in s.attempts[a].ran
    case _ => false
  }

  lemma {:induction false} EntriesHaveACause(states: seq<State>, events: seq<Event>, n: nat, file: string, hash: Hash)
      returns (k: nat)
    requires IsRun(states, events) && n < |states| && Quarantined(states[n].store, file, hash)
    ensures k < n && Records(states[k], events[k], file, hash)
    ensures NoLift(states, events, k + 1, n, file, hash)
  {
    assert Next(states[n - 1], events[n - 1], states[n]);
    RunKeepsInv(states, events, n - 1);
    if Records(states[n - 1], events[n - 1], file, hash) {
      k := n - 1;
    } else {
      k := EntriesHaveACause(states, events, n - 1, file, hash);
      LiftsExactly(states[n - 1], events[n - 1], states[n], file, hash);
    }
  }

  /** Steps at which an attempt's file turns out to be at fault: it cannot be read, its signature is
      refused, it cannot be opened, its descriptor is bad or asks for another host, or its Init
      has the wrong type or fails. */
  predicate Blames(e: Event, a: nat) {
    match e
    case ReadFails(b, _) => a == b
    case Verify(b, ok) => a == b && !ok
    case OpenSnapshot(b, opening) => a == b && opening.OpenFailed?
    case Inspect(b, i) => a == b && (i.BadDescriptor? || i.WrongHostMajor?)
    case Initialize(b, init) => a == b && (init.BadInitType? || init.InitFailed?)
    case _ => false
  }

  ghost predicate WasBlamed(events: seq<Event>, n: nat, a: nat)
    requires n <= |events|
  {
    exists k :: 0 <= k < n && Blames(events[k], a)
  }

  lemma BlamedLater(events: seq<Event>, n: nat, a: nat)
    requires n < |events|
    ensures WasBlamed(events, n + 1, a) <==> WasBlamed(events, n, a) || Blames(events[n], a)
  {
    if WasBlamed(events, n, a) {
      var k :| 0 <= k < n && Blames(events[k], a);
      assert 0 <= k < n + 1;
    }
  }

  lemma BlameStep(s: State, e: Event, s': State, a: nat)
    requires Next(s, e, s')
    ensures Blames(e, a) ==> At(s', a, Failing) && !At(s, a, Failing) && !At(s, a, Ended)
    ensures At(s', a, Failing) ==> At(s, a, Failing) || Blames(e, a)
    ensures At(s, a, Failing) ==> At(s', a, Failing) || e == Condemn(a)
    ensures At(s, a, Ended) ==> At(s', a, Ended)
    ensures e == Condemn(a) ==> At(s, a, Failing) && At(s', a, Ended)
  {
  }

  /** A file at fault is quarantined, and no other: an attempt's file was at fault exactly when its
      entry is about to be recorded or has been. */
  lemma {:induction false} BlamedIsRecorded(states: seq<State>, events: seq<Event>, n: nat, a: nat)
    requires IsRun(states, events) && n < |states|
    ensures WasBlamed(events, n, a) <==> At(states[n], a, Failing) || Condemn(a) in events[..n]
    ensures Condemn(a) in events[..n] ==> At(states[n], a, Ended)
  {
    if n > 0 {
      assert Next(states[n - 1], events[n - 1], states[n]);
      assert events[..n] == events[..n - 1] + [events[n - 1]];
      hide Next, WasBlamed, At;
      BlamedIsRecorded(states, events, n - 1, a);
      BlamedLater(events, n - 1, a);
      BlameStep(states[n - 1], events[n - 1], states[n], a);
    }
  }

  /** And the recording takes: right after it those bytes are quarantined. */
  lemma RecordingTakes(states: seq<State>, events: seq<Event>, k: nat)
    requires IsRun(states, events) && k < |events| && (events[k].Condemn? || events[k].HostQuarantine?)
    ensures events[k].a in states[k].attempts
    ensures Quarantined(states[k + 1].store, states[k].attempts[events[k].a].file, states[k].attempts[events[k].a].hash)
  {
    assert Next(states[k], events[k], states[k + 1]);
  }

  // Building runs

  ghost predicate Ends(states: seq<State>, events: seq<Event>, s: State) {
    IsRun(states, events) && states[|events|] == s
  }

  lemma Extend(states: seq<State>, events: seq<Event>, s: State, e: Event)
      returns (states': seq<State>, events': seq<Event>)
    requires Ends(states, events, s) && Enabled(s, e)
    ensures Ends(states', events', Effect(s, e)) && states <= states'
  {
    states', events' := states + [Effect(s, e)], events + [e];
  }

  ghost predicate Adds(s: State, s': State, a: nat, file: string, hash: Hash, phase: Phase) {
    && a in s'.attempts && s'.attempts == s.attempts[a := s'.attempts[a]]
    && s'.attempts[a].file == file && s'.attempts[a].hash == hash && s'.attempts[a].phase == phase
  }

  lemma Clears(states: seq<State>, events: seq<Event>, s: State, a: nat, file: string, hash: Hash)
      returns (states': seq<State>, events': seq<Event>, s': State)
    requires Ends(states, events, s) && a !in s.attempts && file !in s.store && hash != NO_HASH
    ensures Ends(states', events', s') && s' == s.(attempts := s.attempts[a := Attempt(file, hash, Cleared, {}, false)])
  {
    hide Ends;
    states', events' := Extend(states, events, s, Read(a, file, hash));
    s' := Effect(s, Read(a, file, hash));
    states', events' := Extend(states', events', s', Check(a));
    s' := Effect(s', Check(a));
    assert s'.attempts[a] == Attempt(file, hash, Cleared, {}, false);
    assert s'.attempts == s.attempts[a := s'.attempts[a]];
  }

  /** A load up to the point where the plugin's code has been accepted. */
  lemma Inspects(states: seq<State>, events: seq<Event>, s: State, a: nat, file: string, hash: Hash)
      returns (states': seq<State>, events': seq<Event>, s': State)
    requires Ends(states, events, s) && a !in s.attempts && file !in s.store && hash != NO_HASH
    ensures Ends(states', events', s') && s'.store == s.store
    ensures Adds(s, s', a, file, hash, Inspected)
  {
    hide Ends;
    states', events', s' := Clears(states, events, s, a, file, hash);
    states', events' := Extend(states', events', s', Verify(a, true));
    s' := Effect(s', Verify(a, true));
    states', events' := Extend(states', events', s', OpenSnapshot(a, Opened));
    s' := Effect(s', OpenSnapshot(a, Opened));
    states', events' := Extend(states', events', s', Inspect(a, Fit));
    s' := Effect(s', Inspect(a, Fit));
  }

  /** A successful load. */
  lemma Loads(states: seq<State>, events: seq<Event>, s: State, a: nat, file: string, hash: Hash)
      returns (states': seq<State>, events': seq<Event>, s': State)
    requires Ends(states, events, s) && a !in s.attempts && file !in s.store && hash != NO_HASH
    ensures Ends(states', events', s') && s'.store == s.store
    ensures Adds(s, s', a, file, hash, Registered)
  {
    hide Ends;
    states', events', s' := Inspects(states, events, s, a, file, hash);
    states', events' := Extend(states', events', s', Initialize(a, InitDone));
    s' := Effect(s', Initialize(a, InitDone));
    states', events' := Extend(states', events', s', Register(a, true));
    s' := Effect(s', Register(a, true));
  }

  /** The host quarantines a loaded plugin. */
  lemma HostQuarantines(states: seq<State>, events: seq<Event>, s: State, a: nat)
      returns (states': seq<State>, events': seq<Event>, s': State)
    requires Ends(states, events, s) && At(s, a, Registered)
    ensures Ends(states', events', s') && states <= states'
    ensures s'.store == s.store[s.attempts[a].file := s.attempts[a].hash]
    ensures s'.attempts == s.attempts[a := s.attempts[a].(phase := Ended)]
  {
    hide Ends;
    states', events' := Extend(states, events, s, HostTake(a));
    s' := Effect(s, HostTake(a));
    states', events' := Extend(states', events', s', HostQuarantine(a));
    s' := Effect(s', HostQuarantine(a));
  }

  /** The host's own quarantining can lift an earlier entry without anyone reading the file: two
      plugins, of different names, are loaded from different bytes of one file, the host
      quarantines both, and the bytes quarantined first are free again. */
  lemma HostQuarantineLifts(file: string, first: Hash, second: Hash)
      returns (states: seq<State>, events: seq<Event>, k: nat, s: State)
    requires first != second && first != NO_HASH && second != NO_HASH
    ensures k < |states| && Quarantined(states[k].store, file, first)
    ensures Ends(states, events, s) && Quarantined(s.store, file, second)
    ensures At(s, 2, Mismatched) && s.attempts[2].file == file && s.attempts[2].hash == first
  {
    states, events := [Start()], [];
    states, events, s := Loads(states, events, Start(), 0, file, first);
    states, events, s := Loads(states, events, s, 1, file, second);
    states, events, s := HostQuarantines(states, events, s, 0);
    k := |events|;
    hide Ends;
    states, events, s := HostQuarantines(states, events, s, 1);
    states, events := Extend(states, events, s, Read(2, file, first));
    s := Effect(s, Read(2, file, first));
    states, events := Extend(states, events, s, Check(2));
    s := Effect(s, Check(2));
  }

  /** For every file and bytes: a refused signature quarantines them, the next attempt on the same
      bytes is skipped, and one on other bytes drops the entry and goes on. */
  lemma RefusedUntilChanged(file: string, bad: Hash, good: Hash)
      returns (states: seq<State>, events: seq<Event>, k: nat, s: State)
    requires bad != good && bad != NO_HASH && good != NO_HASH
    ensures Ends(states, events, s) && k < |states| && Quarantined(states[k].store, file, bad)
    ensures At(s, 1, Skipped) && At(s, 2, Cleared) && file !in s.store
    ensures s.attempts[1].hash == bad && s.attempts[2].hash == good
  {
    states, events, s := RefusesSignature(file, bad);
    k := |events|;
    assert states[k] == s;
    hide Ends;
    states, events := Extend(states, events, s, Read(1, file, bad));
    s := Effect(s, Read(1, file, bad));
    states, events := Extend(states, events, s, Check(1));
    s := Effect(s, Check(1));
    states, events := Extend(states, events, s, Read(2, file, good));
    s := Effect(s, Read(2, file, good));
    states, events := Extend(states, events, s, Check(2));
    s := Effect(s, Check(2));
    states, events := Extend(states, events, s, DropEntry(2));
    s := Effect(s, DropEntry(2));
  }

  lemma RefusesSignature(file: string, hash: Hash) returns (states: seq<State>, events: seq<Event>, s: State)
    requires hash != NO_HASH
    ensures Ends(states, events, s) && s.store == map[file := hash] && s.attempts.Keys == {0}
  {
    states, events, s := [Start()], [], Start();
    hide Ends;
    states, events := Extend(states, events, s, Read(0, file, hash));
    s := Effect(s, Read(0, file, hash));
    states, events := Extend(states, events, s, Check(0));
    s := Effect(s, Check(0));
    states, events := Extend(states, events, s, Verify(0, false));
    s := Effect(s, Verify(0, false));
    states, events := Extend(states, events, s, Condemn(0));
    s := Effect(s, Condemn(0));
  }

  /** The step an attempt can take next, whatever the environment answers. */
  predicate CanMove(s: State, a: nat) {
    Enabled(s, Check(a)) || Enabled(s, DropEntry(a)) || (Enabled(s, Verify(a, true)) && Enabled(s, Verify(a, false)))
      || Enabled(s, OpenSnapshot(a, Opened)) || Enabled(s, Inspect(a, Fit)) || Enabled(s, Initialize(a, InitDone))
      || (Enabled(s, Register(a, true)) && Enabled(s, Register(a, false)))
      || (Enabled(s, Unload(a)) && Enabled(s, HostTake(a))) || Enabled(s, HostQuarantine(a)) || Enabled(s, Condemn(a))
  }

  /** An attempt is never stuck before it is skipped or ends; a new one may always read its file or
      fail to, and the store may be cleared at any time. */
  lemma AttemptNeverStuck(s: State, a: nat, file: string, hash: Hash)
    ensures a in s.attempts && !s.attempts[a].phase.Skipped? && !s.attempts[a].phase.Ended? ==> CanMove(s, a)
    ensures a !in s.attempts ==> Enabled(s, ReadFails(a, file)) && (hash != NO_HASH ==> Enabled(s, Read(a, file, hash)))
    ensures Enabled(s, ClearAll)
  {
  }
}
