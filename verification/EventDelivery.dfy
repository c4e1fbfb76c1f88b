/**
 Delivery of policy events to one subscriber: a bounded channel, three overflow
 policies, and Stop and the manager's close racing with the sender. Broadcasts come
 from the reload path, which is serialised, so there is one sender at a time.
 */
module EventDelivery {
  import opened Wrappers

  datatype Policy = DropNewest | DropOldest | Block

  type EventType = nat

  /** What one undisturbed send makes of an open channel's buffer; None means it waits. */
  function Delivered<E>(policy: Policy, capacity: nat, buffer: seq<E>, event: E): Option<seq<E>>
    requires 0 < capacity
  {
    if |buffer| < capacity then Some(buffer + [event])
    else match policy
      case DropNewest => Some(buffer)
      case DropOldest => Some(buffer[1..] + [event])
      case Block => None
  }

  datatype Channel = DoneChannel | EventChannel

  class Subscriber {
    const capacity: nat
    const types: Option<set<EventType>>
    const policy: Policy
    var buffer: seq<nat>
    var doneCloses: nat
    var channelCloses: nat
    var once: bool
    ghost var closed: seq<Channel> // in the order of the close calls

    ghost predicate Valid()
      reads this
    {
      && 0 < capacity && |buffer| <= capacity
      && doneCloses == channelCloses == (if once then 1 else 0)
      && |closed| == doneCloses + channelCloses
    }

    constructor (size: nat, types: Option<set<EventType>>, policy: Policy)
      ensures Valid() && !once && buffer == []
      ensures capacity == (if size == 0 then DEFAULT_BUFFER else size)
      ensures this.types == types && this.policy == policy
    {
      capacity := if size == 0 then DEFAULT_BUFFER else size;
      this.types, this.policy := types, policy;
      buffer, doneCloses, channelCloses, once, closed := [], 0, 0, false, [];
    }

    predicate Wants(t: EventType) {
      types.None? || t in types.value
    }

    /** closedOnce around the two close calls. */
    method CloseChannels()
      requires Valid()
      modifies this
      ensures Valid() && once && buffer == old(buffer)
      ensures closed == if old(once) then old(closed) else [DoneChannel, EventChannel]
    {
      if !once {
        once := true;
        doneCloses := doneCloses + 1;
        channelCloses := channelCloses + 1;
        closed := [DoneChannel, EventChannel];
      }
    }

    /** What subscribe does on a closed manager: the event channel goes first. */
    method CloseUnused()
      requires Valid() && !once
      modifies this
      ensures Valid() && once && buffer == old(buffer)
      ensures closed == [EventChannel, DoneChannel]
    {
      channelCloses := channelCloses + 1;
      doneCloses := doneCloses + 1;
      once := true;
      closed := [EventChannel, DoneChannel];
    }

    /** sendEvent when neither the consumer nor a closer interferes. */
    method Send(event: nat) returns (waits: bool)
      requires Valid()
      modifies this
      ensures Valid() && once == old(once) && closed == old(closed)
      ensures once ==> !waits && buffer == old(buffer)
      ensures !once ==>
        match Delivered(policy, capacity, old(buffer), event)
        case None => waits && buffer == old(buffer)
        case Some(b) => !waits && buffer == b
    {
      if doneCloses > 0 {
        return false;
      }
      match policy {
        case Block =>
          if |buffer| == capacity {
            return true;
          }
          buffer := buffer + [event];
        case DropOldest =>
          if |buffer| < capacity {
            buffer := buffer + [event];
            return false;
          }
          var sent := false;
          while !sent
            invariant Valid() && once == old(once) && closed == old(closed)
            invariant sent ==> buffer == old(buffer)[1..] + [event]
            invariant !sent ==> buffer == old(buffer)
            decreases !sent
          {
            buffer := buffer[1..];
            if |buffer| < capacity {
              buffer := buffer + [event];
              sent := true;
            }
          }
        case DropNewest =>
          if |buffer| < capacity {
            buffer := buffer + [event];
          }
      }
      return false;
    }
  }

  const DEFAULT_BUFFER: nat := 10

  class WatchManager {
    var subscribers: set<Subscriber>
    var closed: bool

    /** Registered subscribers are open; a closed manager has none. */
    ghost predicate Valid()
      reads this, subscribers
    {
      && (forall sub :: sub in subscribers ==> sub.Valid() && !sub.once)
      && (closed ==> subscribers == {})
    }

    constructor ()
      ensures Valid() && subscribers == {} && !closed
    {
      subscribers, closed := {}, false;
    }

    method Subscribe(size: nat, types: Option<set<EventType>>, policy: Policy) returns (sub: Subscriber)
      requires Valid()
      modifies this
      ensures Valid() && fresh(sub) && sub.Valid() && closed == old(closed)
      ensures subscribers == if closed then {} else old(subscribers) + {sub}
      ensures sub.once == closed && (closed ==> sub.closed == [EventChannel, DoneChannel])
      ensures sub.types == types && sub.policy == policy && sub.buffer == []
      ensures sub.capacity == if size == 0 then DEFAULT_BUFFER else size
    {
      sub := new Subscriber(size, types, policy);
      if closed {
        sub.CloseUnused();
        return;
      }
      subscribers := subscribers + {sub};
    }

    method Unsubscribe(sub: Subscriber)
      requires Valid() && sub.Valid()
      modifies this, sub
      ensures Valid() && sub.Valid() && closed == old(closed)
      ensures subscribers == old(subscribers) - {sub}
      ensures sub.once == (old(sub.once) || sub in old(subscribers))
      ensures sub.closed == if sub in old(subscribers) then [DoneChannel, EventChannel] else old(sub.closed)
      ensures sub.buffer == old(sub.buffer)
    {
      var exists_ := sub in subscribers;
      if exists_ {
        subscribers := subscribers - {sub};
        sub.CloseChannels();
      }
    }

    /** The subscribers a broadcast delivers to. */
    method Matching(t: EventType) returns (subs: seq<Subscriber>)
      ensures forall sub :: sub in subs <==> sub in subscribers && (sub.types.None? || t in sub.types.value)
      ensures forall i, j :: 0 <= i < j < |subs| ==> subs[i] != subs[j]
    {
      subs := [];
      var todo := subscribers;
      while todo != {}
        invariant todo <= subscribers
        invariant forall sub :: sub in subs <==> sub in subscribers - todo && sub.Wants(t)
        invariant forall i, j :: 0 <= i < j < |subs| ==> subs[i] != subs[j]
        decreases |todo|
      {
        var sub :| sub in todo;
        todo := todo - {sub};
        if sub.Wants(t) {
          subs := subs + [sub];
        }
      }
    }

    /** Every subscriber is closed once, whatever it was before, and none is left. */
    method Close()
      requires Valid()
      modifies this, subscribers
      ensures Valid() && closed && subscribers == {}
      ensures forall sub :: sub in old(subscribers) ==> sub.Valid() && sub.once && sub.buffer == old(sub.buffer)
      ensures forall sub :: sub in old(subscribers) ==> sub.closed == [DoneChannel, EventChannel]
    {
      closed := true;
      var taken := subscribers;
      subscribers := {};
      var todo := taken;
      while todo != {}
        invariant todo <= taken == old(subscribers)
        invariant closed && subscribers == {}
        invariant forall sub :: sub in taken ==>
          sub.Valid() && sub.once == (sub !in todo) && sub.buffer == old(sub.buffer)
        invariant forall sub :: sub in taken && sub !in todo ==> sub.closed == [DoneChannel, EventChannel]
        decreases |todo|
      {
        var sub :| sub in todo;
        todo := todo - {sub};
        sub.CloseChannels();
      }
    }
  }

  /** The sender's position inside sendEvent. `evicted` counts what it has taken out of
      the channel for the current event. */
  datatype Sender =
    | Idle
    | Checking(event: nat)
    | Sending(event: nat, evicted: nat)   // at a select with a send case
    | Draining(event: nat, evicted: nat)  // at the top of the drop-oldest loop

  /** A goroutine in Stop or in the manager's close. */
  datatype Closer = Removed | DoneClosed | Finished

  datatype Config = Config(policy: Policy, capacity: nat)

  /** Registration and the two channels' closing; `closers` are the calls under way. */
  datatype Life = Life(
    created: bool, registered: bool, managerClosed: bool, once: bool, doneCloses: nat, channelCloses: nat,
    closers: map<nat, Closer>)

  datatype Traffic = Traffic(
    buffer: seq<nat>,
    received: seq<nat>,  // by the consumer, in order
    offered: seq<nat>,   // broadcasts whose snapshot held this subscriber
    dropped: set<nat>,   // offered, but refused, evicted or given up
    next: nat,           // number of the next broadcast
    sender: Sender)

  datatype State = State(life: Life, traffic: Traffic)

  datatype LifeEvent =
    | Subscribe
    | Stop(c: nat)
    | CloseManager(c: nat)
    | CloseDone(c: nat)
    | CloseChannel(c: nat)

  datatype TrafficEvent =
    | Broadcast(wanted: bool)
    | CheckDone
    | Enqueue
    | GiveUp
    | Panic        // send on the closed channel, recovered
    | Overflow     // the select's default case
    | TakeOldest
    | TakeNothing
    | Receive

  datatype Event = Control(l: LifeEvent) | Flow(t: TrafficEvent)

  function Start(): State {
    State(Life(false, false, false, false, 0, 0, map[]), Traffic([], [], [], {}, 0, Idle))
  }

  predicate ControlEnabled(l: Life, e: LifeEvent) {
    match e
    case Subscribe => !l.created
    case Stop(t) => l.created && t !in l.closers
    case CloseManager(t) => t !in l.closers
    case CloseDone(t) => t in l.closers && l.closers[t].Removed?
    case CloseChannel(t) => t in l.closers && l.closers[t].DoneClosed?
  }

  function Remove(l: Life, t: nat): Life {
    l.(registered := false, closers := l.closers[t := if l.registered then Removed else Finished])
  }

  function ControlEffect(l: Life, e: LifeEvent): Life
    requires ControlEnabled(l, e)
  {
    match e
    case Subscribe =>
      if l.managerClosed then
        l.(created := true, once := true, doneCloses := l.doneCloses + 1, channelCloses := l.channelCloses + 1)
      else l.(created := true, registered := true)
    case Stop(t) => Remove(l, t)
    case CloseManager(t) => Remove(l, t).(managerClosed := true)
    case CloseDone(t) =>
      if l.once then l.(closers := l.closers[t := Finished])
      else l.(once := true, doneCloses := l.doneCloses + 1, closers := l.closers[t := DoneClosed])
    case CloseChannel(t) => l.(channelCloses := l.channelCloses + 1, closers := l.closers[t := Finished])
  }

  predicate FlowEnabled(c: Config, l: Life, t: Traffic, e: TrafficEvent) {
    match e
    case Broadcast(_) => t.sender.Idle?
    case CheckDone => t.sender.Checking?
    case Enqueue => t.sender.Sending? && l.channelCloses == 0 && |t.buffer| < c.capacity
    case GiveUp => (t.sender.Sending? || t.sender.Draining?) && l.doneCloses > 0
    case Panic => t.sender.Sending? && l.channelCloses > 0
    case Overflow => t.sender.Sending? && !c.policy.Block? && l.channelCloses == 0 && |t.buffer| >= c.capacity
      && l.doneCloses == 0
    case TakeOldest => t.sender.Draining? && t.buffer != []
    case TakeNothing => t.sender.Draining? && t.buffer == [] && (l.channelCloses > 0 || l.doneCloses == 0)
    case Receive => t.buffer != []
  }

  function Drop(t: Traffic): Traffic
    requires !t.sender.Idle?
  {
    t.(sender := Idle, dropped := t.dropped + {t.sender.event})
  }

  function FlowEffect(c: Config, l: Life, t: Traffic, e: TrafficEvent): Traffic
    requires FlowEnabled(c, l, t, e)
  {
    match e
    case Broadcast(wanted) =>
      if l.registered && wanted then t.(next := t.next + 1, offered := t.offered + [t.next], sender := Checking(t.next))
      else t.(next := t.next + 1)
    case CheckDone => if l.doneCloses > 0 then Drop(t) else t.(sender := Sending(t.sender.event, 0))
    case Enqueue => t.(sender := Idle, buffer := t.buffer + [t.sender.event])
    case GiveUp => Drop(t)
    case Panic => Drop(t)
    case Overflow => if c.policy.DropNewest? then Drop(t) else t.(sender := Draining(t.sender.event, t.sender.evicted))
    case TakeOldest =>
      t.(sender := Sending(t.sender.event, t.sender.evicted + 1),
         buffer := t.buffer[1..],
         dropped := t.dropped + {t.buffer[0]})
    case TakeNothing => t.(sender := Sending(t.sender.event, t.sender.evicted))
    case Receive => t.(buffer := t.buffer[1..], received := t.received + [t.buffer[0]])
  }

  predicate FlowNext(c: Config, l: Life, t: Traffic, e: TrafficEvent, t': Traffic) {
    FlowEnabled(c, l, t, e) && t' == FlowEffect(c, l, t, e)
  }

  predicate ControlNext(l: Life, e: LifeEvent, l': Life) {
    ControlEnabled(l, e) && l' == ControlEffect(l, e)
  }

  predicate Next(c: Config, s: State, e: Event, s': State) {
    match e
    case Control(l) => ControlNext(s.life, l, s'.life) && s'.traffic == s.traffic
    case Flow(t) => FlowNext(c, s.life, s.traffic, t, s'.traffic) && s'.life == s.life
  }

  ghost predicate IsRun(c: Config, states: seq<State>, events: seq<Event>) {
    && 0 < c.capacity
    && |states| == |events| + 1
    && states[0] == Start()
    && forall i :: 0 <= i < |events| ==> Next(c, states[i], events[i], states[i + 1])
  }

  /** The events that made it into the channel and were not evicted, in channel order. */
  function Stream(t: Traffic): seq<nat> {
    t.received + t.buffer
  }

  predicate Increasing(q: seq<nat>) {
    forall i, j :: 0 <= i < j < |q| ==> q[i] < q[j]
  }

  predicate Below(q: seq<nat>, bound: nat) {
    forall i :: 0 <= i < |q| ==> q[i] < bound
  }

  /** The event under way is the newest; everything in the channel is older. */
  ghost predicate Ordered(t: Traffic) {
    && Increasing(Stream(t)) && Increasing(t.offered)
    && Below(t.offered, t.next)
    && (if t.sender.Idle? then Below(Stream(t), t.next)
        else t.offered != [] && t.sender.event == t.offered[|t.offered| - 1] && Below(Stream(t), t.sender.event))
  }

  lemma DroppingKeepsOrder(received: seq<nat>, buffer: seq<nat>)
    requires buffer != [] && Increasing(received + buffer)
    ensures Increasing(received + buffer[1..])
    ensures forall bound :: Below(received + buffer, bound) ==> Below(received + buffer[1..], bound)
  {
    var q, q' := received + buffer, received + buffer[1..];
    assert forall i :: 0 <= i < |q'| ==> q'[i] == q[if i < |received| then i else i + 1];
  }

  lemma AppendKeepsOrder(q: seq<nat>, event: nat, next: nat)
    requires Increasing(q) && Below(q, event) && event < next
    ensures Increasing(q + [event]) && Below(q + [event], next) && Below(q, next)
  {
  }

  lemma NextKeepsOrdered(c: Config, l: Life, t: Traffic, e: TrafficEvent, t': Traffic)
    requires Ordered(t) && FlowNext(c, l, t, e, t')
    ensures Ordered(t')
  {
    hide Increasing, Below;
    if !t.sender.Idle? {
      assert t.sender.event < t.next by { LastIsBelow(t.offered, t.next); }
      AppendKeepsOrder(Stream(t), t.sender.event, t.next);
    }
    match e
    case TakeOldest => DroppingKeepsOrder(t.received, t.buffer);
    case Receive => assert Stream(t') == Stream(t);
    case Enqueue => assert Stream(t') == Stream(t) + [t.sender.event];
    case Broadcast(_) =>
      AppendKeepsOrder(t.offered, t.next, t.next + 1);
      WiderBound(Stream(t), t.next);
    case _ =>
  }

  lemma LastIsBelow(q: seq<nat>, next: nat)
    requires q != [] && Below(q, next)
    ensures q[|q| - 1] < next
  {
  }

  lemma WiderBound(q: seq<nat>, next: nat)
    requires Below(q, next)
    ensures Below(q, next + 1)
  {
  }

  // Closing

  ghost predicate LifeOk(l: Life) {
    && (l.registered ==> l.created && !l.once && !l.managerClosed)
    && (!l.created ==> !l.registered && !l.once)
    && l.doneCloses == (if l.once then 1 else 0)
    && l.channelCloses <= l.doneCloses
    && (forall t, u :: t in l.closers && u in l.closers && !l.closers[t].Finished? && !l.closers[u].Finished? ==>
      t == u)
    && (forall t :: t in l.closers && l.closers[t].Removed? ==> l.created && !l.registered && !l.once)
    && (forall t :: t in l.closers && l.closers[t].DoneClosed? ==> l.once && l.channelCloses == 0)
    && (l.registered || !l.created ==> forall t :: t in l.closers ==> l.closers[t].Finished?)
  }

  lemma ControlKeepsLife(l: Life, e: LifeEvent, l': Life)
    requires LifeOk(l) && ControlNext(l, e, l')
    ensures LifeOk(l')
    ensures l.doneCloses <= l'.doneCloses && l.channelCloses <= l'.channelCloses
  {
  }

  // Accounting

  predicate Current(sender: Sender, event: nat) {
    !sender.Idle? && sender.event == event
  }

  /** Every offered event is in exactly one place. */
  ghost predicate Conserved(t: Traffic) {
    && (forall x :: x in t.offered <==> x in Stream(t) || x in t.dropped || Current(t.sender, x))
    && (forall x :: x in t.dropped ==> x !in Stream(t) && !Current(t.sender, x))
  }

  lemma IncreasingIsInjective(q: seq<nat>, i: nat, j: nat)
    requires Increasing(q) && i < |q| && j < |q| && q[i] == q[j]
    ensures i == j
  {
  }

  lemma TakenIsGone(received: seq<nat>, buffer: seq<nat>)
    requires buffer != [] && Increasing(received + buffer)
    ensures buffer[0] !in received + buffer[1..]
    ensures forall x :: x in received + buffer <==> x in received + buffer[1..] || x == buffer[0]
  {
    var q := received + buffer;
    assert q[|received|] == buffer[0];
    assert forall i :: 0 <= i < |received| ==> q[i] == received[i];
    assert forall i :: 1 <= i < |buffer| ==> q[|received| + i] == buffer[i];
    assert buffer == [buffer[0]] + buffer[1..];
  }

  lemma BelowExcludes(q: seq<nat>, x: nat)
    requires Below(q, x)
    ensures x !in q
  {
  }

  lemma NextConserves(c: Config, l: Life, t: Traffic, e: TrafficEvent, t': Traffic)
    requires Ordered(t) && Conserved(t) && FlowNext(c, l, t, e, t')
    ensures Conserved(t')
  {
    hide Increasing, Below;
    if !t.sender.Idle? {
      BelowExcludes(Stream(t), t.sender.event);
    }
    match e
    case TakeOldest => TakenIsGone(t.received, t.buffer);
    case Receive => assert Stream(t') == Stream(t);
    case Enqueue => assert Stream(t') == Stream(t) + [t.sender.event];
    case Broadcast(_) =>
      BelowExcludes(t.offered, t.next);
      BelowExcludes(Stream(t), t.next);
    case _ =>
  }

  // Capacity and the drop-oldest loop

  ghost predicate Bounded(c: Config, t: Traffic) {
    && |t.buffer| <= c.capacity
    && (t.sender.Draining? ==> c.policy.DropOldest? && t.sender.evicted == 0)
    && (t.sender.Sending? ==> t.sender.evicted <= 1)
    && (t.sender.Sending? && t.sender.evicted == 1 ==> |t.buffer| < c.capacity)
  }

  lemma NextKeepsBounded(c: Config, l: Life, t: Traffic, e: TrafficEvent, t': Traffic)
    requires Bounded(c, t) && FlowNext(c, l, t, e, t')
    ensures Bounded(c, t')
  {
  }

  // What each policy keeps while the subscription is open

  function InFlight(sender: Sender): seq<nat> {
    if sender.Idle? then [] else [sender.event]
  }

  ghost predicate BlockKeepsAll(c: Config, l: Life, t: Traffic) {
    c.policy.Block? && l.doneCloses == 0 ==> t.offered == Stream(t) + InFlight(t.sender)
  }

  lemma NextKeepsAll(c: Config, l: Life, t: Traffic, e: TrafficEvent, t': Traffic)
    requires Bounded(c, t) && BlockKeepsAll(c, l, t) && LifeOk(l) && FlowNext(c, l, t, e, t')
    ensures BlockKeepsAll(c, l, t')
  {
    match e
    case Receive => assert Stream(t') == Stream(t);
    case Enqueue => assert Stream(t') == Stream(t) + [t.sender.event];
    case Broadcast(_) => assert Stream(t) + [] == Stream(t);
    case _ =>
  }

  predicate Older(dropped: set<nat>, buffer: seq<nat>) {
    forall d, i :: d in dropped && 0 <= i < |buffer| ==> d < buffer[i]
  }

  predicate UpTo(dropped: set<nat>, bound: nat) {
    forall d :: d in dropped ==> d < bound
  }

  lemma OlderThanTail(dropped: set<nat>, buffer: seq<nat>)
    requires buffer != [] && Older(dropped, buffer)
    ensures Older(dropped, buffer[1..])
  {
  }

  lemma OlderAfterEviction(dropped: set<nat>, received: seq<nat>, buffer: seq<nat>)
    requires buffer != [] && Older(dropped, buffer) && Increasing(received + buffer)
    ensures Older(dropped + {buffer[0]}, buffer[1..])
  {
    var q := received + buffer;
    assert forall i :: 0 <= i < |buffer| ==> q[|received| + i] == buffer[i];
  }

  lemma OlderThanNew(dropped: set<nat>, buffer: seq<nat>, event: nat)
    requires Older(dropped, buffer) && UpTo(dropped, event)
    ensures Older(dropped, buffer + [event])
  {
  }

  lemma UpToGrows(dropped: set<nat>, x: nat, bound: nat)
    requires UpTo(dropped, bound) && x < bound
    ensures UpTo(dropped + {x}, bound)
  {
  }

  lemma UpToWidens(dropped: set<nat>, bound: nat, wider: nat)
    requires UpTo(dropped, bound) && bound <= wider
    ensures UpTo(dropped, wider)
  {
  }

  predicate SameLast(q: seq<nat>, r: seq<nat>) {
    r != [] ==> q != [] && q[|q| - 1] == r[|r| - 1]
  }

  /** With DropOldest the newest finished broadcast is the last thing in the channel or
      received, and whatever was dropped is older than everything still in the channel. */
  ghost predicate NewestKept(c: Config, l: Life, t: Traffic) {
    c.policy.DropOldest? && l.doneCloses == 0 ==>
      && (t.sender.Idle? ==> SameLast(Stream(t), t.offered))
      && Older(t.dropped, t.buffer)
      && UpTo(t.dropped, if t.sender.Idle? then t.next else t.sender.event)
  }

  lemma NextKeepsNewest(c: Config, l: Life, t: Traffic, e: TrafficEvent, t': Traffic)
    requires Ordered(t) && NewestKept(c, l, t) && LifeOk(l) && FlowNext(c, l, t, e, t')
    ensures NewestKept(c, l, t')
  {
    hide Increasing, Below, Older, UpTo;
    if c.policy.DropOldest? && l.doneCloses == 0 {
      match e
      case TakeOldest =>
        OlderAfterEviction(t.dropped, t.received, t.buffer);
        BelowAt(Stream(t), |t.received|, t.sender.event);
        UpToGrows(t.dropped, t.buffer[0], t.sender.event);
      case Receive =>
        assert Stream(t') == Stream(t);
        OlderThanTail(t.dropped, t.buffer);
      case Enqueue =>
        OlderThanNew(t.dropped, t.buffer, t.sender.event);
        LastIsBelow(t.offered, t.next);
        UpToWidens(t.dropped, t.sender.event, t.next);
      case Broadcast(_) => UpToWidens(t.dropped, t.next, t.next + 1);
      case _ =>
    }
  }

  lemma BelowAt(q: seq<nat>, i: nat, bound: nat)
    requires i < |q| && Below(q, bound)
    ensures q[i] < bound
  {
  }

  ghost predicate Inv(c: Config, s: State) {
    && LifeOk(s.life)
    && Ordered(s.traffic) && Conserved(s.traffic) && Bounded(c, s.traffic)
    && BlockKeepsAll(c, s.life, s.traffic) && NewestKept(c, s.life, s.traffic)
  }

  lemma NextKeepsInv(c: Config, s: State, e: Event, s': State)
    requires Inv(c, s) && Next(c, s, e, s')
    ensures Inv(c, s')
  {
    match e
    case Control(l) => ControlKeepsLife(s.life, l, s'.life);
    case Flow(t) =>
      hide Ordered, Conserved, Bounded, LifeOk, BlockKeepsAll, NewestKept, FlowNext;
      NextKeepsOrdered(c, s.life, s.traffic, t, s'.traffic);
      NextConserves(c, s.life, s.traffic, t, s'.traffic);
      NextKeepsBounded(c, s.life, s.traffic, t, s'.traffic);
      NextKeepsAll(c, s.life, s.traffic, t, s'.traffic);
      NextKeepsNewest(c, s.life, s.traffic, t, s'.traffic);
  }

  lemma {:induction false} RunKeepsInv(c: Config, states: seq<State>, events: seq<Event>, n: nat)
    requires IsRun(c, states, events) && n < |states|
    ensures Inv(c, states[n])
  {
    if n > 0 {
      hide Inv, Next;
      RunKeepsInv(c, states, events, n - 1);
      NextKeepsInv(c, states[n - 1], events[n - 1], states[n]);
    }
  }

  // The guarantees

  /** The consumer sees the broadcasts in order, without repetition, and the channel
      never exceeds its capacity. */
  lemma ReceivedInOrder(c: Config, states: seq<State>, events: seq<Event>, n: nat)
    requires IsRun(c, states, events) && n < |states|
    ensures Increasing(states[n].traffic.received) && |states[n].traffic.buffer| <= c.capacity
    ensures forall x :: x in states[n].traffic.received ==> x in states[n].traffic.offered
    ensures Increasing(states[n].traffic.offered) && Below(states[n].traffic.offered, states[n].traffic.next)
  {
    RunKeepsInv(c, states, events, n);
    var t := states[n].traffic;
    assert forall i :: 0 <= i < |t.received| ==> Stream(t)[i] == t.received[i];
  }

  /** Every offered event is received, in the channel, dropped or being sent, and only one of these. */
  lemma NothingVanishes(c: Config, states: seq<State>, events: seq<Event>, n: nat, x: nat)
    requires IsRun(c, states, events) && n < |states|
    ensures
      var t := states[n].traffic;
      && (x in t.offered <==> x in t.received || x in t.buffer || x in t.dropped || Current(t.sender, x))
      && !(x in t.received && x in t.buffer)
      && (x in t.dropped ==> x !in t.received && x !in t.buffer && !Current(t.sender, x))
      && (Current(t.sender, x) ==> x !in t.received && x !in t.buffer)
  {
    RunKeepsInv(c, states, events, n);
    var t := states[n].traffic;
    assert x in Stream(t) <==> x in t.received || x in t.buffer;
    if Current(t.sender, x) {
      BelowExcludes(Stream(t), x);
    }
    if x in t.received && x in t.buffer {
      var i :| 0 <= i < |t.received| && t.received[i] == x;
      var j :| 0 <= j < |t.buffer| && t.buffer[j] == x;
      IncreasingIsInjective(Stream(t), i, |t.received| + j);
      assert false;
    }
  }

  // The broadcasts of a run

  predicate IsBroadcast(e: Event) {
    e.Flow? && e.t.Broadcast?
  }

  /** The number of the broadcast at step n. */
  function BroadcastsBefore(events: seq<Event>, n: nat): nat
    requires n <= |events|
  {
    if n == 0 then 0 else BroadcastsBefore(events, n - 1) + if IsBroadcast(events[n - 1]) then 1 else 0
  }

  /** The broadcasts up to step n that the subscriber wanted while it was registered, by number. */
  function Addressed(states: seq<State>, events: seq<Event>, n: nat): seq<nat>
    requires n <= |events| < |states|
  {
    if n == 0 then []
    else if IsBroadcast(events[n - 1]) && events[n - 1].t.wanted && states[n - 1].life.registered then
      Addressed(states, events, n - 1) + [BroadcastsBefore(events, n - 1)]
    else Addressed(states, events, n - 1)
  }

  /** What is offered to the subscriber is every broadcast it wants while it is registered, no
      other, in order. */
  lemma {:induction false} OfferedIsAddressed(c: Config, states: seq<State>, events: seq<Event>, n: nat)
    requires IsRun(c, states, events) && n < |states|
    ensures states[n].traffic.offered == Addressed(states, events, n)
    ensures states[n].traffic.next == BroadcastsBefore(events, n)
  {
    hide Next;
    if n > 0 {
      OfferedIsAddressed(c, states, events, n - 1);
      OfferStep(c, states[n - 1], events[n - 1], states[n]);
    }
  }

  lemma OfferStep(c: Config, s: State, e: Event, s': State)
    requires Next(c, s, e, s')
    ensures s'.traffic.next == s.traffic.next + if IsBroadcast(e) then 1 else 0
    ensures s'.traffic.offered ==
      if IsBroadcast(e) && e.t.wanted && s.life.registered then s.traffic.offered + [s.traffic.next]
      else s.traffic.offered
  {
  }

  /** Block: as long as the subscription is open, the consumer gets every broadcast it wants,
      in order: what it has, what is queued and what is being sent is all of it. */
  lemma BlockLosesNothing(c: Config, states: seq<State>, events: seq<Event>, n: nat)
    requires IsRun(c, states, events) && n < |states| && c.policy.Block? && states[n].life.doneCloses == 0
    ensures
      var t := states[n].traffic;
      t.received + t.buffer + InFlight(t.sender) == Addressed(states, events, n)
  {
    RunKeepsInv(c, states, events, n);
    OfferedIsAddressed(c, states, events, n);
  }

  /** Under every policy a broadcast to an open subscription can be received. */
  lemma BroadcastIsReceived(c: Config) returns (states: seq<State>, events: seq<Event>)
    requires 0 < c.capacity
    ensures IsRun(c, states, events)
    ensures events == [Control(Subscribe), Flow(Broadcast(true)), Flow(CheckDone), Flow(Enqueue), Flow(Receive)]
    ensures states[4].traffic.buffer == [0] && states[5].traffic.received == [0]
  {
    events := [Control(Subscribe), Flow(Broadcast(true)), Flow(CheckDone), Flow(Enqueue), Flow(Receive)];
    var life := ControlEffect(Start().life, Subscribe);
    var t0 := Start().traffic;
    var t1 := FlowEffect(c, life, t0, Broadcast(true));
    var t2 := FlowEffect(c, life, t1, CheckDone);
    var t3 := FlowEffect(c, life, t2, Enqueue);
    var t4 := FlowEffect(c, life, t3, Receive);
    states := [Start(), State(life, t0), State(life, t1), State(life, t2), State(life, t3), State(life, t4)];
  }

  /** Step e, in state s, loses event x: the subscription is closing; or DropNewest meets a full
      channel with x in hand; or DropOldest, which had met one, takes x from the front. */
  predicate Loses(c: Config, s: State, e: Event, x: nat) {
    || (s.life.doneCloses > 0 && Current(s.traffic.sender, x))
    || (c.policy.DropNewest? && e == Flow(Overflow) && |s.traffic.buffer| >= c.capacity && Current(s.traffic.sender, x))
    || (c.policy.DropOldest? && e == Flow(TakeOldest) && s.traffic.buffer != [] && s.traffic.buffer[0] == x)
  }

  ghost predicate WasLost(c: Config, states: seq<State>, events: seq<Event>, n: nat, x: nat)
    requires n <= |events| < |states|
  {
    exists k :: 0 <= k < n && Loses(c, states[k], events[k], x)
  }

  /** The send under way ends without delivery: it finds the subscription closing at its start, while
      it waits, or by the panic of sending on a closed channel. */
  predicate Abandons(s: State, e: Event) {
    (e == Flow(CheckDone) && s.life.doneCloses > 0) || e == Flow(GiveUp) || e == Flow(Panic)
  }

  lemma StepDrops(c: Config, s: State, e: Event, s': State, x: nat)
    requires Inv(c, s) && Next(c, s, e, s')
    ensures x in s'.traffic.dropped ==> x in s.traffic.dropped || Loses(c, s, e, x)
    ensures x in s.traffic.dropped ==> x in s'.traffic.dropped
    ensures Abandons(s, e) ==>
      !s.traffic.sender.Idle? && s'.traffic.sender.Idle? && s.traffic.sender.event in s'.traffic.dropped
  {
  }

  /** Nothing is lost but by closing or by the overflow policy. */
  lemma {:induction false} LossHasACause(c: Config, states: seq<State>, events: seq<Event>, n: nat, x: nat)
    requires IsRun(c, states, events) && n < |states| && x in states[n].traffic.dropped
    ensures WasLost(c, states, events, n, x)
  {
    if n > 0 {
      RunKeepsInv(c, states, events, n - 1);
      assert Next(c, states[n - 1], events[n - 1], states[n]);
      hide Next, Inv, Loses;
      StepDrops(c, states[n - 1], events[n - 1], states[n], x);
      if x in states[n - 1].traffic.dropped {
        LossHasACause(c, states, events, n - 1, x);
        var k :| 0 <= k < n - 1 && Loses(c, states[k], events[k], x);
        assert 0 <= k < n;
      }
    }
  }

  /** A send that meets a closing subscription ends, and its event is lost for good. */
  lemma {:induction false} LateSendIsLost(c: Config, states: seq<State>, events: seq<Event>, k: nat, n: nat)
    requires IsRun(c, states, events) && k < n < |states| && Abandons(states[k], events[k])
    ensures !states[k].traffic.sender.Idle? && states[k + 1].traffic.sender.Idle?
    ensures
      var x, t := states[k].traffic.sender.event, states[n].traffic;
      x in t.dropped && x !in t.received && x !in t.buffer
  {
    assert Next(c, states[n - 1], events[n - 1], states[n]);
    RunKeepsInv(c, states, events, n - 1);
    if k < n - 1 {
      LateSendIsLost(c, states, events, k, n - 1);
    }
    StepDrops(c, states[n - 1], events[n - 1], states[n], states[k].traffic.sender.event);
    NothingVanishes(c, states, events, n, states[k].traffic.sender.event);
  }

  /** DropOldest: while the subscription is open, the newest finished broadcast is never the
      one that was dropped, and drops always hit the oldest. */
  lemma DropOldestKeepsNewest(c: Config, states: seq<State>, events: seq<Event>, n: nat)
    requires IsRun(c, states, events) && n < |states| && c.policy.DropOldest? && states[n].life.doneCloses == 0
    ensures
      var t := states[n].traffic;
      && (t.sender.Idle? && t.offered != [] ==>
            var newest := t.offered[|t.offered| - 1];
            if t.buffer != [] then t.buffer[|t.buffer| - 1] == newest
            else t.received != [] && t.received[|t.received| - 1] == newest)
      && Older(t.dropped, t.buffer)
  {
    RunKeepsInv(c, states, events, n);
  }

  /** The drop-oldest loop makes room at once: at most one event is evicted per broadcast,
      and after that eviction the send cannot overflow again. */
  lemma DropOldestEvictsOnce(c: Config, states: seq<State>, events: seq<Event>, n: nat)
    requires IsRun(c, states, events) && n < |events| && states[n].traffic.sender.Sending?
      && states[n].traffic.sender.evicted > 0
    ensures states[n].traffic.sender.evicted == 1 && events[n] != Flow(Overflow)
  {
    RunKeepsInv(c, states, events, n);
    assert Next(c, states[n], events[n], states[n + 1]);
  }

  /** DropNewest: while the subscription is open, a send that ends has queued its event
      exactly when there was room. */
  lemma DropNewestNeedsRoom(c: Config, states: seq<State>, events: seq<Event>, n: nat)
    requires IsRun(c, states, events) && n < |events| && c.policy.DropNewest? && states[n].life.doneCloses == 0
    requires states[n].traffic.sender.Sending? && states[n + 1].traffic.sender.Idle?
    ensures
      var t, t' := states[n].traffic, states[n + 1].traffic;
      if |t.buffer| < c.capacity then t'.buffer == t.buffer + [t.sender.event] && t'.dropped == t.dropped
      else t'.buffer == t.buffer && t'.dropped == t.dropped + {t.sender.event}
  {
    RunKeepsInv(c, states, events, n);
    assert Next(c, states[n], events[n], states[n + 1]);
  }

  /** With Block and DropNewest, what is in the channel reaches the consumer: nothing is
      ever taken back, before or after the subscription is closed. */
  lemma {:induction false} QueuedIsKept(c: Config, states: seq<State>, events: seq<Event>, i: nat, n: nat)
    requires IsRun(c, states, events) && i <= n < |states| && !c.policy.DropOldest?
    ensures Stream(states[i].traffic) <= Stream(states[n].traffic)
    decreases n
  {
    if i < n {
      QueuedIsKept(c, states, events, i, n - 1);
      RunKeepsInv(c, states, events, n - 1);
      StreamGrows(c, states[n - 1], events[n - 1], states[n]);
    }
  }

  lemma StreamGrows(c: Config, s: State, e: Event, s': State)
    requires Next(c, s, e, s') && Bounded(c, s.traffic) && !c.policy.DropOldest?
    ensures Stream(s.traffic) <= Stream(s'.traffic)
  {
    if e.Flow? && e.t.Receive? {
      assert Stream(s'.traffic) == Stream(s.traffic);
    }
  }

  /** Racing Stops and the manager's close close each channel at most once, `done` first. */
  lemma ClosedAtMostOnce(c: Config, states: seq<State>, events: seq<Event>, n: nat)
    requires IsRun(c, states, events) && n < |states|
    ensures states[n].life.channelCloses <= states[n].life.doneCloses <= 1
    ensures states[n].life.registered ==> states[n].life.doneCloses == 0
  {
    RunKeepsInv(c, states, events, n);
  }

  predicate ClosesManager(e: Event) {
    e.Control? && e.l.CloseManager?
  }

  lemma {:induction false} ManagerClosedIsHistory(c: Config, states: seq<State>, events: seq<Event>, n: nat)
    requires IsRun(c, states, events) && n < |states|
    ensures states[n].life.managerClosed <==> exists k :: 0 <= k < n && ClosesManager(events[k])
  {
    if n > 0 {
      assert Next(c, states[n - 1], events[n - 1], states[n]);
      ManagerClosedIsHistory(c, states, events, n - 1);
    }
  }

  /** A subscription made on a manager that was closed before is closed on both channels at once;
      made on an open one it is registered and open. */
  lemma SubscribeAfterClose(c: Config, states: seq<State>, events: seq<Event>, k: nat)
    requires IsRun(c, states, events) && k < |events| && events[k] == Control(Subscribe)
    ensures
      var l := states[k + 1].life;
      if exists j :: 0 <= j < k && ClosesManager(events[j]) then !l.registered && l.doneCloses == l.channelCloses == 1
      else l.registered && l.doneCloses == l.channelCloses == 0
  {
    ManagerClosedIsHistory(c, states, events, k);
    RunKeepsInv(c, states, events, k);
    assert Next(c, states[k], events[k], states[k + 1]);
  }

  /** When no Stop or close is under way, an existing subscription is either registered
      with both channels open or closed on both. */
  lemma SettledIsOpenOrClosed(c: Config, states: seq<State>, events: seq<Event>, n: nat)
    requires IsRun(c, states, events) && n < |states| && states[n].life.created
    requires forall t :: t in states[n].life.closers ==> states[n].life.closers[t].Finished?
    ensures var l := states[n].life; l.doneCloses == l.channelCloses == (if l.registered then 0 else 1)
  {
    RunKeepsInv(c, states, events, n);
    ChannelFollows(c, states, events, n);
  }

  /** Someone is about to close whatever is not closed yet. */
  ghost predicate CloseUnderWay(l: Life) {
    && (l.created && !l.registered && l.doneCloses == 0 ==> exists t :: t in l.closers && l.closers[t].Removed?)
    && (l.doneCloses > l.channelCloses ==> exists t :: t in l.closers && l.closers[t].DoneClosed?)
  }

  lemma {:induction false} ChannelFollows(c: Config, states: seq<State>, events: seq<Event>, n: nat)
    requires IsRun(c, states, events) && n < |states|
    ensures CloseUnderWay(states[n].life)
  {
    if n > 0 {
      ChannelFollows(c, states, events, n - 1);
      RunKeepsInv(c, states, events, n - 1);
      assert Next(c, states[n - 1], events[n - 1], states[n]);
      if events[n - 1].Control? {
        FollowStep(states[n - 1].life, events[n - 1].l, states[n].life);
      }
    }
  }

  lemma FollowStep(l: Life, e: LifeEvent, l': Life)
    requires LifeOk(l) && CloseUnderWay(l) && ControlNext(l, e, l')
    ensures CloseUnderWay(l')
  {
    if !e.Subscribe? {
      assert e.c in l'.closers;
      assert forall u :: u in l.closers && u != e.c ==> u in l'.closers && l'.closers[u] == l.closers[u];
    }
  }

  // The class's Send is the state machine's sender left alone

  ghost predicate FlowRun(c: Config, l: Life, t: Traffic, steps: seq<TrafficEvent>, t': Traffic)
    decreases |steps|
  {
    if steps == [] then t == t'
    else FlowEnabled(c, l, t, steps[0]) && FlowRun(c, l, FlowEffect(c, l, t, steps[0]), steps[1..], t')
  }

  predicate SenderStep(e: TrafficEvent) {
    !e.Broadcast? && !e.Receive?
  }

  /** On an open channel that nobody else touches, the sender's steps lead to the buffer that
      Subscriber.Send leaves, and the sender is stuck exactly when Send waits. */
  lemma UndisturbedSendAgrees(c: Config, l: Life, t: Traffic) returns (steps: seq<TrafficEvent>, t': Traffic)
    requires 0 < c.capacity && |t.buffer| <= c.capacity && l.doneCloses == 0 && l.channelCloses == 0
    requires t.sender.Sending? && t.sender.evicted == 0
    ensures
      var delivered := Delivered(c.policy, c.capacity, t.buffer, t.sender.event);
      && (delivered.Some? ==>
        FlowRun(c, l, t, steps, t') && t'.sender.Idle? && t'.buffer == delivered.value && t'.received == t.received)
      && (delivered.None? <==> forall e :: SenderStep(e) ==> !FlowEnabled(c, l, t, e))
    ensures forall e :: e in steps ==> SenderStep(e)
  {
    steps := if |t.buffer| < c.capacity then [Enqueue]
             else match c.policy
               case DropNewest => [Overflow]
               case DropOldest => [Overflow, TakeOldest, Enqueue]
               case Block => [];
    t' := t;
    if |t.buffer| < c.capacity {
      t' := FlowEffect(c, l, t, Enqueue);
      assert SenderStep(Enqueue) && FlowEnabled(c, l, t, Enqueue);
    } else if !c.policy.Block? {
      assert SenderStep(Overflow) && FlowEnabled(c, l, t, Overflow);
      t' := FlowEffect(c, l, t, Overflow);
      if c.policy.DropOldest? {
        var t2 := FlowEffect(c, l, t', TakeOldest);
        assert steps[1..][1..] == [Enqueue];
        t' := FlowEffect(c, l, t2, Enqueue);
        assert FlowRun(c, l, t2, [Enqueue], t');
      }
    }
  }

  ghost predicate Ends(c: Config, states: seq<State>, events: seq<Event>, s: State) {
    IsRun(c, states, events) && states[|events|] == s
  }

  lemma Extend(c: Config, states: seq<State>, events: seq<Event>, s: State, e: Event, s': State)
      returns (states': seq<State>, events': seq<Event>)
    requires Ends(c, states, events, s) && Next(c, s, e, s')
    ensures Ends(c, states', events', s') && events' == events + [e]
  {
    states', events' := states + [s'], events + [e];
  }

  /** Stop always gets through: whatever a send to a registered subscriber is waiting for, a Stop lets
      it end, and then closes the events channel. */
  lemma StopReleasesSender(c: Config, states: seq<State>, events: seq<Event>, s: State, t: nat)
      returns (states': seq<State>, events': seq<Event>, s': State)
    requires Ends(c, states, events, s) && s.life.registered && t !in s.life.closers && !s.traffic.sender.Idle?
    ensures Ends(c, states', events', s') && Control(Stop(t)) in events' && Control(CloseChannel(t)) in events'
    ensures s'.traffic.sender.Idle? && !s'.life.registered && s'.life.doneCloses == s'.life.channelCloses == 1
  {
    RunKeepsInv(c, states, events, |events|);
    hide Ends, Inv, Ordered, Conserved, Bounded, BlockKeepsAll, NewestKept;
    var life := ControlEffect(s.life, Stop(t));
    s' := State(life, s.traffic);
    states', events' := Extend(c, states, events, s, Control(Stop(t)), s');
    life := ControlEffect(life, CloseDone(t));
    states', events' := Extend(c, states', events', s', Control(CloseDone(t)), State(life, s.traffic));
    s' := State(life, s.traffic);
    var leave := if s.traffic.sender.Checking? then CheckDone else GiveUp;
    var idle := State(life, FlowEffect(c, life, s.traffic, leave));
    states', events' := Extend(c, states', events', s', Flow(leave), idle);
    s' := State(ControlEffect(life, CloseChannel(t)), idle.traffic);
    states', events' := Extend(c, states', events', idle, Control(CloseChannel(t)), s');
  }

  /** A send is stuck only in one way: under Block, on an open subscription whose channel is full,
      and then the consumer can receive. A send on a closed channel may panic. Closing goes on. */
  lemma SenderNeverStuck(c: Config, states: seq<State>, events: seq<Event>, n: nat)
    requires IsRun(c, states, events) && n < |states| && !states[n].traffic.sender.Idle?
    ensures
      var l, t := states[n].life, states[n].traffic;
      && ((forall e :: SenderStep(e) ==> !FlowEnabled(c, l, t, e)) <==>
            t.sender.Sending? && c.policy.Block? && l.doneCloses == 0 && |t.buffer| == c.capacity)
      && (|t.buffer| == c.capacity ==> FlowEnabled(c, l, t, Receive))
      && (t.sender.Sending? && l.channelCloses > 0 ==> FlowEnabled(c, l, t, Panic) && FlowEnabled(c, l, t, GiveUp))
    ensures forall u :: u in states[n].life.closers && !states[n].life.closers[u].Finished? ==>
      ControlEnabled(states[n].life, CloseDone(u)) || ControlEnabled(states[n].life, CloseChannel(u))
  {
    RunKeepsInv(c, states, events, n);
    var l, t := states[n].life, states[n].traffic;
    assert SenderStep(CheckDone) && SenderStep(Enqueue) && SenderStep(GiveUp) && SenderStep(Overflow)
      && SenderStep(TakeOldest) && SenderStep(TakeNothing);
    if !(t.sender.Sending? && c.policy.Block? && l.doneCloses == 0 && |t.buffer| == c.capacity) {
      assert FlowEnabled(c, l, t, CheckDone) || FlowEnabled(c, l, t, Enqueue) || FlowEnabled(c, l, t, GiveUp)
        || FlowEnabled(c, l, t, Overflow) || FlowEnabled(c, l, t, TakeOldest) || FlowEnabled(c, l, t, TakeNothing);
    }
  }
}
