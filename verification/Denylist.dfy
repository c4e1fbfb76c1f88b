/**
 The token denylist: revoked identifiers, each permanent or bounded by an
 expiry, with expired entries swept on writes. The class is proved to answer
 from its operation history alone, so sweeping is unobservable.
 */
module Denylist {
  type Key = string

  /** Times are instants; the zero time marks a permanent entry. */
  const ZERO_TIME: int := 0

  type Entries = map<Key, int>

  /** One completed operation with the clock values it read. RevokeUntil reads
      the clock before taking the lock (checked) and again to sweep (at). */
  datatype Event =
    | Revoked(key: Key, at: int)
    | RevokedUntil(key: Key, expiry: int, checked: int, at: int)
    | Restored(key: Key)
    | Swept(at: int)

  predicate Expired(expiry: int, now: int) {
    expiry != ZERO_TIME && expiry <= now
  }

  /** What IsRevoked answers from a map of entries. */
  predicate Denied(e: Entries, key: Key, now: int) {
    key in e && (e[key] == ZERO_TIME || now < e[key])
  }

  function Unexpired(e: Entries, now: int): Entries {
    map k | k in e && !Expired(e[k], now) :: e[k]
  }

  function Apply(e: Entries, ev: Event): Entries {
    match ev
    case Revoked(key, at) => Unexpired(e, at)[key := ZERO_TIME]
    case RevokedUntil(key, expiry, checked, at) => if expiry > checked then Unexpired(e, at)[key := expiry] else e
    case Restored(key) => e - {key}
    case Swept(at) => Unexpired(e, at)
  }

  function Replay(log: seq<Event>): Entries {
    if log == [] then map[] else Apply(Replay(log[..|log| - 1]), log[|log| - 1])
  }

  /** The specification, which knows nothing of entries or sweeping: the last
      operation on key that had an effect decides. */
  function Verdict(log: seq<Event>, key: Key, now: int): bool {
    if log == [] then false
    else
      var rest := log[..|log| - 1];
      match log[|log| - 1]
      case Revoked(k, _) => if k == key then true else Verdict(rest, key, now)
      case RevokedUntil(k, expiry, checked, _) =>
        if k == key && expiry > checked then expiry == ZERO_TIME || now < expiry else Verdict(rest, key, now)
      case Restored(k) => if k == key then false else Verdict(rest, key, now)
      case Swept(_) => Verdict(rest, key, now)
  }

  /** No sweep in the log read a clock value later than now. */
  predicate SweptBy(log: seq<Event>, now: int) {
    forall i :: 0 <= i < |log| ==>
      match log[i]
      case Revoked(_, at) => at <= now
      case RevokedUntil(_, _, _, at) => at <= now
      case Restored(_) => true
      case Swept(at) => at <= now
  }

  /** Refinement: after any operations whatsoever, a reader whose clock is not
      behind any sweep gets the verdict of the history. */
  lemma {:induction false} AnswersFromHistory(log: seq<Event>, key: Key, now: int)
    requires SweptBy(log, now)
    ensures Denied(Replay(log), key, now) <==> Verdict(log, key, now)
  {
    if log != [] {
      AnswersFromHistory(log[..|log| - 1], key, now);
      var last := log[|log| - 1];
      assert SweptBy([last], now) by { assert log[|log| - 1] == [last][0]; }
    }
  }

  /** A sweep changes an answer exactly for a bounded entry that the sweeper's
      clock had passed and the reader's clock has not. */
  lemma SweepObservable(e: Entries, at: int, key: Key, now: int)
    ensures Denied(Unexpired(e, at), key, now) != Denied(e, key, now)
            <==> key in e && e[key] != ZERO_TIME && now < e[key] <= at
  {
  }

  /** No live entry is ever dropped by a sweep. */
  lemma SweepKeepsLive(e: Entries, at: int, key: Key)
    ensures key in Unexpired(e, at) <==> Denied(e, key, at)
    ensures key in Unexpired(e, at) ==> Unexpired(e, at)[key] == e[key]
  {
  }

  /** From index i on, nothing but permanent revocations and no-ops touches key. */
  predicate UndisturbedAfter(log: seq<Event>, i: nat, key: Key) {
    forall j :: i < j < |log| ==>
      match log[j]
      case Revoked(_, _) => true
      case RevokedUntil(k, expiry, checked, _) => k != key || expiry <= checked
      case Restored(k) => k != key
      case Swept(_) => true
  }

  /** An effective bounded revocation that nothing later disturbs denies its
      key at every instant before the expiry. */
  lemma {:induction false} BoundedRevocationHolds(log: seq<Event>, i: nat, key: Key, now: int)
    requires i < |log| && log[i].RevokedUntil? && log[i].key == key && log[i].expiry > log[i].checked
    requires UndisturbedAfter(log, i, key)
    requires now < log[i].expiry
    ensures Verdict(log, key, now)
  {
    if i < |log| - 1 {
      var rest := log[..|log| - 1];
      assert UndisturbedAfter(rest, i, key);
      BoundedRevocationHolds(rest, i, key, now);
    }
  }

  /** And with nothing at all later for the key, it stops denying at the expiry,
      unless the expiry is the zero time, which reads as permanent. */
  lemma {:induction false} BoundedRevocationEnds(log: seq<Event>, i: nat, key: Key, now: int)
    requires i < |log| && log[i].RevokedUntil? && log[i].key == key && log[i].expiry > log[i].checked
    requires UndisturbedAfter(log, i, key)
    requires forall j :: i < j < |log| && log[j].Revoked? ==> log[j].key != key
    ensures Verdict(log, key, now) <==> now < log[i].expiry || log[i].expiry == ZERO_TIME
  {
    if i < |log| - 1 {
      var rest := log[..|log| - 1];
      assert UndisturbedAfter(rest, i, key);
      BoundedRevocationEnds(rest, i, key, now);
    }
  }

  /** A revocation until the zero time has no effect, unless the clock is before the zero time:
      then it is permanent. */
  lemma ZeroTimeRevocation(log: seq<Event>, key: Key, checked: int, at: int, now: int)
    ensures Verdict(log + [RevokedUntil(key, ZERO_TIME, checked, at)], key, now)
            <==> checked < ZERO_TIME || Verdict(log, key, now)
  {
    var extended := log + [RevokedUntil(key, ZERO_TIME, checked, at)];
    assert extended[..|extended| - 1] == log;
  }

  class Denylist {
    var entries: Entries
    ghost var log: seq<Event>

    ghost predicate Valid()
      reads this
    {
      entries == Replay(log)
    }

    constructor ()
      ensures Valid() && log == []
    {
      entries := map[];
      log := [];
    }

    lemma Appended(before: seq<Event>, ev: Event)
      ensures Replay(before + [ev]) == Apply(Replay(before), ev)
    {
      assert (before + [ev])[..|before|] == before;
    }

    method Revoke(key: Key, now: int)
      requires Valid()
      modifies this
      ensures Valid() && log == old(log) + [Revoked(key, now)]
    {
      var _ := SweepLocked(now);
      entries := entries[key := ZERO_TIME];
      log := log + [Revoked(key, now)];
      Appended(old(log), Revoked(key, now));
    }

    method RevokeUntil(key: Key, expiry: int, checked: int, now: int)
      requires Valid()
      modifies this
      ensures Valid() && log == old(log) + [RevokedUntil(key, expiry, checked, now)]
    {
      log := log + [RevokedUntil(key, expiry, checked, now)];
      Appended(old(log), RevokedUntil(key, expiry, checked, now));
      if !(expiry > checked) {
        return;
      }
      var _ := SweepLocked(now);
      entries := entries[key := expiry];
    }

    method Restore(key: Key)
      requires Valid()
      modifies this
      ensures Valid() && log == old(log) + [Restored(key)]
    {
      entries := entries - {key};
      log := log + [Restored(key)];
      Appended(old(log), Restored(key));
    }

    /** The answer is the history's, unless the clock ran behind a sweep. */
    method IsRevoked(key: Key, now: int) returns (r: bool)
      requires Valid()
      ensures SweptBy(log, now) ==> r == Verdict(log, key, now)
      ensures r == Denied(entries, key, now)
    {
      if key !in entries {
        r := false;
      } else {
        r := entries[key] == ZERO_TIME || now < entries[key];
      }
      if SweptBy(log, now) {
        AnswersFromHistory(log, key, now);
      }
    }

    method Sweep(now: int) returns (n: nat)
      requires Valid()
      modifies this
      ensures Valid() && log == old(log) + [Swept(now)]
      ensures n == |old(entries)| - |entries|
    {
      n := SweepLocked(now);
      log := log + [Swept(now)];
      Appended(old(log), Swept(now));
    }

    method SweepLocked(now: int) returns (n: nat)
      modifies this`entries
      ensures entries == Unexpired(old(entries), now)
      ensures n == |old(entries)| - |entries|
    {
      n := 0;
      var todo := entries.Keys;
      while todo != {}
        invariant todo <= entries.Keys <= old(entries).Keys
        invariant forall k :: k in entries ==> entries[k] == old(entries)[k]
        invariant forall k :: k in old(entries) && k !in todo ==> (k in entries <==> !Expired(old(entries)[k], now))
        invariant forall k :: k in todo ==> k in entries
        invariant n == |old(entries)| - |entries|
        decreases |todo|
      {
        var k :| k in todo;
        todo := todo - {k};
        if entries[k] != ZERO_TIME && !(now < entries[k]) {
          assert entries.Keys == (entries - {k}).Keys + {k};
          entries := entries - {k};
          n := n + 1;
        }
      }
      assert entries == Unexpired(old(entries), now);
    }
  }
}
