/**
 The verification-key cache: a TTL map with a size cap and a cache-wide
 invalidation generation. Every method is one lock section; `View` is the value
 the interleaving model in InvalidationFence works on.
 */
module KeyCache {
  import opened Wrappers
  import opened FlightKey
  import opened Machine

  datatype CacheKey = CacheKey(subject: Bytes, kid: Bytes)

  datatype Entry<+V> = Entry(key: V, expires: int)

  datatype Cache<+V> = Cache(items: map<CacheKey, Entry<V>>, gen: nat)

  /** A present entry counts only strictly before its expiry. */
  predicate Hit<V>(c: Cache<V>, k: CacheKey, now: int) {
    k in c.items && now < c.items[k].expires
  }

  function Live<V>(items: map<CacheKey, Entry<V>>, now: int): map<CacheKey, Entry<V>> {
    map k | k in items && now < items[k].expires :: items[k]
  }

  ghost predicate SubMap<V>(a: map<CacheKey, Entry<V>>, b: map<CacheKey, Entry<V>>) {
    forall k :: k in a ==> k in b && a[k] == b[k]
  }

  /** What is left of items once room was made for one insert: expired entries
      go first, and live ones are sacrificed only down to one below the cap. */
  ghost predicate MakesRoom<V>(
      items: map<CacheKey, Entry<V>>, now: int, maxEntries: int, kept: map<CacheKey, Entry<V>>)
  {
    if maxEntries > 0 && |items| >= maxEntries then
      var live := Live(items, now);
      if |live| < maxEntries then kept == live else SubMap(kept, live) && |kept| == maxEntries - 1
    else
      kept == items
  }

  /** The effect of putIfGeneration: dropped unless gen is still current. */
  ghost predicate Puts<V(!new)>(
      c: Cache<V>, k: CacheKey, v: V, gen: nat, now: int, ttl: int, maxEntries: int, c': Cache<V>)
  {
    if ttl <= 0 || c.gen != gen then c' == c
    else
      exists kept :: MakesRoom(c.items, now, maxEntries, kept) && c' == Cache(kept[k := Entry(v, now + ttl)], c.gen)
  }

  function DropKey<V>(c: Cache<V>, k: CacheKey): Cache<V> {
    Cache(c.items - {k}, c.gen + 1)
  }

  function DropSubject<V>(c: Cache<V>, subject: Bytes): Cache<V> {
    Cache(map k | k in c.items && k.subject != subject :: c.items[k], c.gen + 1)
  }

  predicate WithinCap<V>(c: Cache<V>, maxEntries: int) {
    maxEntries > 0 ==> |c.items| <= maxEntries
  }

  lemma SubMapSize<V>(a: map<CacheKey, Entry<V>>, b: map<CacheKey, Entry<V>>)
    requires SubMap(a, b)
    ensures |a| <= |b|
  {
    assert a.Keys <= b.Keys;
    SubsetSize(a.Keys, b.Keys);
  }

  /** A put keeps the cap, keeps the generation, and changes no entry other
      than by dropping it; a put under an old generation changes nothing. */
  lemma PutsEffect<V(!new)>(c: Cache<V>, k: CacheKey, v: V, gen: nat, now: int, ttl: int, maxEntries: int, c': Cache<V>)
    requires Puts(c, k, v, gen, now, ttl, maxEntries, c')
    ensures c'.gen == c.gen
    ensures WithinCap(c, maxEntries) ==> WithinCap(c', maxEntries)
    ensures forall j :: j in c'.items && j != k ==> j in c.items && c'.items[j] == c.items[j]
    ensures ttl > 0 && gen == c.gen ==> k in c'.items && c'.items[k] == Entry(v, now + ttl)
    ensures gen != c.gen ==> c' == c
  {
    if ttl > 0 && c.gen == gen {
      var kept :| MakesRoom(c.items, now, maxEntries, kept) && c' == Cache(kept[k := Entry(v, now + ttl)], c.gen);
      assert c'.items.Keys == kept.Keys + {k};
    }
  }

  lemma DropsEffect<V>(c: Cache<V>, k: CacheKey, subject: Bytes, maxEntries: int)
    ensures WithinCap(c, maxEntries) ==>
      WithinCap(DropKey(c, k), maxEntries) && WithinCap(DropSubject(c, subject), maxEntries)
    ensures k !in DropKey(c, k).items
    ensures forall j: CacheKey :: j.subject == subject ==> j !in DropSubject(c, subject).items
    ensures SubMap(DropKey(c, k).items, c.items) && SubMap(DropSubject(c, subject).items, c.items)
  {
    SubMapSize(DropKey(c, k).items, c.items);
    SubMapSize(DropSubject(c, subject).items, c.items);
  }

  class Store<V(==, !new)> {
    const ttl: int
    const maxEntries: int
    var items: map<CacheKey, Entry<V>>
    var gen: nat

    function View(): Cache<V>
      reads this
    {
      Cache(items, gen)
    }

    ghost predicate Valid()
      reads this
    {
      WithinCap(View(), maxEntries)
    }

    constructor (ttl: int, maxEntries: int)
      ensures this.ttl == ttl && this.maxEntries == maxEntries
      ensures Valid() && View() == Cache(map[], 0)
    {
      this.ttl := ttl;
      this.maxEntries := maxEntries;
      items := map[];
      gen := 0;
    }

    method Get(k: CacheKey, now: int) returns (r: Option<V>)
      ensures r.Some? <==> Hit(View(), k, now)
      ensures r.Some? ==> r.value == items[k].key
    {
      if k !in items || !(now < items[k].expires) {
        return None;
      }
      return Some(items[k].key);
    }

    method Generation() returns (g: nat)
      ensures g == View().gen
    {
      g := gen;
    }

    method PutIfGeneration(k: CacheKey, key: V, g: nat, now: int)
      requires Valid()
      modifies this
      ensures Valid()
      ensures Puts(old(View()), k, key, g, now, ttl, maxEntries, View())
    {
      if ttl <= 0 || gen != g {
        return;
      }
      if maxEntries > 0 && |items| >= maxEntries {
        EvictLocked(now);
      }
      ghost var kept := items;
      items := items[k := Entry(key, now + ttl)];
      assert MakesRoom(old(items), now, maxEntries, kept);
      assert Puts(old(View()), k, key, g, now, ttl, maxEntries, View());
      PutsEffect(old(View()), k, key, g, now, ttl, maxEntries, View());
    }

    /** Frees at least one slot: expired entries first, then arbitrary ones. */
    method EvictLocked(now: int)
      requires 0 < maxEntries <= |items|
      modifies this`items
      ensures MakesRoom(old(items), now, maxEntries, items)
    {
      ghost var live := Live(items, now);
      var todo := items.Keys;
      while todo != {}
        invariant todo <= items.Keys <= old(items).Keys
        invariant SubMap(live, items) && SubMap(items, old(items))
        invariant forall k :: k in items && k !in todo ==> k in live
        decreases |todo|
      {
        var k :| k in todo;
        todo := todo - {k};
        if !(now < items[k].expires) {
          items := items - {k};
        }
      }
      assert items == live;
      todo := items.Keys;
      while todo != {}
        invariant todo <= items.Keys
        invariant SubMap(items, live)
        invariant |live| < maxEntries ==> items == live
        invariant |live| >= maxEntries ==> |items| >= maxEntries - 1
        invariant |items| >= maxEntries ==> todo == items.Keys
        decreases |todo|
      {
        if |items| < maxEntries {
          break;
        }
        var k :| k in todo;
        todo := todo - {k};
        assert items.Keys == (items - {k}).Keys + {k};
        items := items - {k};
      }
      assert |items| < maxEntries;
    }

    method DeleteKey(k: CacheKey)
      requires Valid()
      modifies this
      ensures Valid()
      ensures View() == DropKey(old(View()), k)
    {
      gen := gen + 1;
      items := items - {k};
      DropsEffect(old(View()), k, k.subject, maxEntries);
    }

    method DeleteSubject(subject: Bytes)
      requires Valid()
      modifies this
      ensures Valid()
      ensures View() == DropSubject(old(View()), subject)
    {
      gen := gen + 1;
      var todo := items.Keys;
      while todo != {}
        invariant todo <= items.Keys
        invariant gen == old(gen) + 1
        invariant SubMap(items, old(items)) && SubMap(DropSubject(old(View()), subject).items, items)
        invariant forall k :: k in items && k !in todo ==> k.subject != subject
        decreases |todo|
      {
        var k :| k in todo;
        todo := todo - {k};
        if k.subject == subject {
          items := items - {k};
        }
      }
      assert items == DropSubject(old(View()), subject).items;
      DropsEffect(old(View()), CacheKey([], []), subject, maxEntries);
    }
  }
}
