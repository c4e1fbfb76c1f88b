/**
 The OIDC provider's signature cache. A hit skips the signature check, so it must
 not change what a caller sees: the result is always that of a fresh verification.
 Hashing and signature verification are abstract: SHA-256 values are represented by
 their preimages, and a signature check is a function of token, algorithm and key.
 */
module SignatureCache {
  import opened Wrappers
  import Conditions
  import JwtVerifier

  const NUL: char := '\0'
  const VERSION: string := "oidc-sig-v2"

  type Claims = Conditions.Claims

  type Header = JwtVerifier.Header

  datatype Parsed = Parsed(header: Header, claims: Claims)

  /** A public key's content; keys without a PKIX encoding have no fingerprint. */
  datatype Material = Encodable(der: string) | Unencodable(raw: nat)

  function Fingerprint(key: Material): string {
    match key
    case Encodable(der) => "sha256:" + der
    case Unencodable(_) => ""
  }

  lemma FingerprintIdentifies(k: Material, l: Material)
    requires Fingerprint(k) == Fingerprint(l) != ""
    ensures k == l
  {
    assert Fingerprint(k)[7..] == k.der;
    assert Fingerprint(l)[7..] == l.der;
  }

  datatype KeyId = KeyId(alg: string, kid: string)

  type KeySet = map<KeyId, Material>

  /** What the token parser and the signature check answer. */
  datatype World = World(parse: string -> Option<Parsed>, verifies: (string, string, Material) -> bool)

  datatype Outcome = Accepted(claims: Claims, header: Header) | Rejected

  function Resolve(keys: KeySet, header: Header): Option<Material> {
    var id := KeyId(header.alg, header.kid);
    if id in keys then Some(keys[id]) else None
  }

  /** Verification without a cache, against one key set and one algorithm list. */
  function FreshVerdict(w: World, keys: KeySet, allowed: seq<string>, token: string): Outcome {
    match w.parse(token)
    case None => Rejected
    case Some(p) =>
      if p.header.alg !in allowed then Rejected
      else match Resolve(keys, p.header)
        case None => Rejected
        case Some(key) => if w.verifies(token, p.header.alg, key) then Accepted(p.claims, p.header) else Rejected
  }

  /** The list algorithmAllowed consults: the policy's own methods, or the current defaults. */
  function AllowedList(methods: seq<string>, defaults: seq<string>): seq<string> {
    if methods == [] then defaults else methods
  }

  const JWT_DEFAULTS: seq<string> := ["EdDSA", "ES256", "RS256"]

  /** The list a JWT verifier built from the same options enforces: the JWT package ignores an
      empty list and keeps its own default. */
  function VerifierList(methods: seq<string>, defaults: seq<string>): seq<string> {
    if AllowedList(methods, defaults) == [] then JWT_DEFAULTS else AllowedList(methods, defaults)
  }

  /** The two lists treat an algorithm alike exactly unless both sources are empty and it is one
      of the JWT package's own. */
  lemma ListsAgreeExactly(methods: seq<string>, defaults: seq<string>, alg: string)
    ensures (alg in AllowedList(methods, defaults) <==> alg in VerifierList(methods, defaults))
            <==> methods != [] || defaults != [] || alg !in JWT_DEFAULTS
  {
  }

  // The verifier a compiled policy holds

  datatype Policy = Policy(methods: seq<string>, prebuilt: seq<string>, defaultMethods: seq<string>)

  function NewPolicy(methods: seq<string>, defaults: seq<string>): Policy {
    Policy(methods, VerifierList(methods, defaults), if methods == [] then defaults else [])
  }

  function SignatureVerifier(policy: Policy, defaults: seq<string>): seq<string> {
    if policy.methods == [] && policy.defaultMethods != defaults then VerifierList(policy.methods, defaults)
    else policy.prebuilt
  }

  /** However the mutable default list changed since the policy was built, the verifier
      enforces the list as it is now. */
  lemma PrebuiltVerifierIsCurrent(methods: seq<string>, built: seq<string>, now: seq<string>)
    ensures SignatureVerifier(NewPolicy(methods, built), now) == VerifierList(methods, now)
  {
  }

  // Cache keys

  predicate NulFree(s: string) {
    NUL !in s
  }

  /** The part of a provider's configuration that its cache keys bind. */
  datatype Site = Site(prefix: string, issuer: string, jwksUrl: string)

  predicate Plain(site: Site) {
    NulFree(site.issuer) && NulFree(site.jwksUrl)
  }

  datatype CacheKey = CacheKey(prefix: string, hashed: string)

  function KeyOf(site: Site, token: string): CacheKey {
    CacheKey(site.prefix, VERSION + [NUL] + site.issuer + [NUL] + site.jwksUrl + [NUL] + token)
  }

  lemma FirstFieldAgrees(a: string, x: string, b: string, y: string)
    requires NulFree(a) && NulFree(b) && a + [NUL] + x == b + [NUL] + y
    ensures a == b && x == y
  {
    var s := a + [NUL] + x;
    assert s == b + [NUL] + y;
    assert s[|a|] == NUL && s[|b|] == NUL;
    assert forall i :: 0 <= i < |a| ==> s[i] == a[i];
    assert forall i :: 0 <= i < |b| ==> s[i] == b[i];
    assert |a| == |b|;
    assert s[..|a|] == a && s[..|b|] == b;
    assert s[|a| + 1..] == x && s[|b| + 1..] == y;
  }

  lemma LastFieldAgrees(a: string, x: string, b: string, y: string)
    requires NulFree(x) && NulFree(y) && a + [NUL] + x == b + [NUL] + y
    ensures a == b && x == y
  {
    var s := a + [NUL] + x;
    assert s == b + [NUL] + y;
    assert s[|a|] == NUL && s[|b|] == NUL;
    assert forall i :: |a| < i < |s| ==> s[i] == x[i - |a| - 1];
    assert forall i :: |b| < i < |s| ==> s[i] == y[i - |b| - 1];
    assert |a| == |b|;
    assert s[..|a|] == a && s[..|b|] == b;
    assert s[|a| + 1..] == x && s[|b| + 1..] == y;
  }

  /** Providers whose issuer and JWKS URL contain no NUL never share a key, neither with
      each other nor for two tokens. */
  lemma PlainKeysAreInjective(p: Site, t: string, q: Site, u: string)
    requires Plain(p) && Plain(q) && KeyOf(p, t) == KeyOf(q, u)
    ensures p == q && t == u
  {
    var a, b := p.jwksUrl + [NUL] + t, q.jwksUrl + [NUL] + u;
    var c, d := p.issuer + [NUL] + a, q.issuer + [NUL] + b;
    assert KeyOf(p, t).hashed == VERSION + [NUL] + c;
    assert KeyOf(q, u).hashed == VERSION + [NUL] + d;
    FirstFieldAgrees(VERSION, c, VERSION, d);
    FirstFieldAgrees(p.issuer, a, q.issuer, b);
    FirstFieldAgrees(p.jwksUrl, t, q.jwksUrl, u);
  }

  lemma NulFreeTokensAgree(p: Site, t: string, q: Site, u: string)
    requires NulFree(t) && NulFree(u) && KeyOf(p, t) == KeyOf(q, u)
    ensures t == u
  {
    var a, b := VERSION + [NUL] + p.issuer + [NUL] + p.jwksUrl, VERSION + [NUL] + q.issuer + [NUL] + q.jwksUrl;
    assert KeyOf(p, t).hashed == a + [NUL] + t;
    assert KeyOf(q, u).hashed == b + [NUL] + u;
    LastFieldAgrees(a, t, b, u);
  }

  lemma {:induction false} LastNul(s: string) returns (a: string, x: string)
    requires !NulFree(s)
    ensures s == a + [NUL] + x && NulFree(x)
  {
    if NulFree(s[1..]) {
      assert s[0] == NUL by {
        assert s == [s[0]] + s[1..];
      }
      a, x := [], s[1..];
    } else {
      a, x := LastNul(s[1..]);
      a := [s[0]] + a;
    }
  }

  /** JWKS URLs that can be fetched contain no NUL; issuers are free strings. */
  predicate Fetchable(site: Site) {
    NulFree(site.jwksUrl)
  }

  /** Exactly the strings that contain a NUL, which are never well-formed JWTs, can land on
      the key under which some provider stored a different, well-formed token. */
  lemma ClashNeedsNul(p: Site, t: string)
    requires Fetchable(p)
    ensures !NulFree(t) <==>
            exists q: Site, u: string :: Fetchable(q) && NulFree(u) && u != t && KeyOf(q, u) == KeyOf(p, t)
  {
    if NulFree(t) {
      forall q: Site, u: string | NulFree(u) && KeyOf(q, u) == KeyOf(p, t)
        ensures u == t
      {
        NulFreeTokensAgree(p, t, q, u);
      }
    } else {
      var q, u := ClashingSite(p, t);
    }
  }

  /** The other provider: its issuer takes in all but the last two fields. */
  lemma ClashingSite(p: Site, t: string) returns (q: Site, u: string)
    requires !NulFree(t)
    ensures Fetchable(q) && NulFree(u) && u != t && KeyOf(q, u) == KeyOf(p, t)
  {
    var a;
    a, u := LastNul(t);
    var issuer, url := LastNul(p.issuer + [NUL] + p.jwksUrl + [NUL] + a);
    q := Site(p.prefix, issuer, url);
    assert KeyOf(q, u).hashed == VERSION + [NUL] + (issuer + [NUL] + url) + [NUL] + u;
    assert KeyOf(p, t).hashed == VERSION + [NUL] + (p.issuer + [NUL] + p.jwksUrl + [NUL] + a) + [NUL] + u;
  }

  // Entries

  /** A stored entry. Entries this code writes have claims and a header with an algorithm. */
  datatype Entry = Entry(claims: Option<Claims>, header: Option<Header>, fingerprint: string)

  predicate Usable(entry: Entry) {
    entry.claims.Some? && entry.fingerprint != "" && entry.header.Some?
  }

  /** The current key set still resolves the key that verified the entry. */
  predicate Honored(entry: Entry, keys: KeySet) {
    Usable(entry) &&
    match Resolve(keys, entry.header.value)
    case None => false
    case Some(key) => Fingerprint(key) == entry.fingerprint
  }

  /** What a JWT parser accepts contains no NUL: it is base64url and dots. */
  ghost predicate JwtSyntax(w: World) {
    forall t :: w.parse(t).Some? ==> NulFree(t)
  }

  ghost predicate Signed(w: World, token: string, parsed: Parsed, key: Material) {
    w.parse(token) == Some(parsed) && w.verifies(token, parsed.header.alg, key)
  }

  function EntryFor(parsed: Parsed, key: Material): Entry {
    Entry(Some(parsed.claims), Some(parsed.header), Fingerprint(key))
  }

  /** The entry records a verification one of the providers did under this key. */
  ghost predicate Vouches(w: World, sites: set<Site>, key: CacheKey, entry: Entry) {
    exists site, token, parsed, material ::
      && site in sites && KeyOf(site, token) == key
      && Signed(w, token, parsed, material) && entry == EntryFor(parsed, material)
  }

  ghost predicate EntriesOk(w: World, sites: set<Site>, entries: map<CacheKey, Entry>) {
    forall key :: key in entries ==> Vouches(w, sites, key, entries[key])
  }

  /** Tokens for which cache keys cannot be mistaken. */
  ghost predicate Unambiguous(sites: set<Site>, token: string) {
    NulFree(token) || forall site :: site in sites ==> Plain(site)
  }

  lemma SameToken(w: World, sites: set<Site>, p: Site, t: string, q: Site, u: string)
    requires JwtSyntax(w) && p in sites && q in sites && KeyOf(p, t) == KeyOf(q, u) && w.parse(u).Some?
    requires Unambiguous(sites, t)
    ensures t == u
  {
    if NulFree(t) {
      NulFreeTokensAgree(p, t, q, u);
    } else {
      PlainKeysAreInjective(p, t, q, u);
    }
  }

  /** An honored hit says what a fresh verification with the same keys would say. */
  lemma HitAgrees(w: World, sites: set<Site>, site: Site, token: string, entry: Entry, keys: KeySet,
      allowed: seq<string>)
    requires JwtSyntax(w) && site in sites && Unambiguous(sites, token)
    requires Vouches(w, sites, KeyOf(site, token), entry) && Honored(entry, keys)
    ensures FreshVerdict(w, keys, allowed, token) ==
            if entry.header.value.alg in allowed then Accepted(entry.claims.value, entry.header.value) else Rejected
  {
    var q, u, parsed, material :|
      && q in sites && KeyOf(q, u) == KeyOf(site, token)
      && Signed(w, u, parsed, material) && entry == EntryFor(parsed, material);
    SameToken(w, sites, site, token, q, u);
    FingerprintIdentifies(material, Resolve(keys, parsed.header).value);
  }

  /** What an honored hit answers. */
  function HitVerdict(entry: Entry, allowed: seq<string>): Outcome {
    if Usable(entry) && entry.header.value.alg in allowed
    then Accepted(entry.claims.value, entry.header.value)
    else Rejected
  }

  /** A hit agrees with the fresh verification it stands for exactly unless neither the policy nor
      the defaults list an algorithm and the token's is one of the JWT package's own. */
  lemma HitAgreesExactly(w: World, sites: set<Site>, site: Site, token: string, entry: Entry, keys: KeySet,
      methods: seq<string>, defaults: seq<string>)
    requires JwtSyntax(w) && site in sites && Unambiguous(sites, token)
    requires Vouches(w, sites, KeyOf(site, token), entry) && Honored(entry, keys)
    ensures HitVerdict(entry, AllowedList(methods, defaults)) ==
            FreshVerdict(w, keys, VerifierList(methods, defaults), token)
            <==> methods != [] || defaults != [] || entry.header.value.alg !in JWT_DEFAULTS
  {
    HitAgrees(w, sites, site, token, entry, keys, VerifierList(methods, defaults));
    ListsAgreeExactly(methods, defaults, entry.header.value.alg);
  }

  lemma AcceptedVouches(w: World, sites: set<Site>, site: Site, token: string, keys: KeySet, allowed: seq<string>)
    requires site in sites && FreshVerdict(w, keys, allowed, token).Accepted?
    ensures w.parse(token).Some? && Resolve(keys, w.parse(token).value.header).Some?
    ensures Vouches(w, sites, KeyOf(site, token),
      EntryFor(w.parse(token).value, Resolve(keys, w.parse(token).value.header).value))
  {
    assert Signed(w, token, w.parse(token).value, Resolve(keys, w.parse(token).value.header).value);
  }

  /** By ClashNeedsNul every string with a NUL shares its key with a well-formed token of some
      other provider. Once that token was verified, its entry is honored for the string,
      which a fresh verification refuses. */
  lemma NulTokenIsMistaken(
      w: World, p: Site, t: string, q: Site, u: string, keys: KeySet, allowed: seq<string>, parsed: Parsed,
      key: Material)
    requires JwtSyntax(w) && !NulFree(t) && KeyOf(q, u) == KeyOf(p, t) && Fetchable(p) && Fetchable(q)
    requires Signed(w, u, parsed, key) && Resolve(keys, parsed.header) == Some(key) && Fingerprint(key) != ""
    ensures Vouches(w, {q}, KeyOf(p, t), EntryFor(parsed, key)) && Honored(EntryFor(parsed, key), keys)
    ensures FreshVerdict(w, keys, allowed, t) == Rejected
  {
    assert q in {q} && KeyOf(q, u) == KeyOf(p, t) && Signed(w, u, parsed, key);
    assert w.parse(t).None?;
  }

  // The provider

  class PublicKey {
    const material: Material
    const pointer: bool // an RSA or ECDSA key, compared by identity

    constructor (material: Material, pointer: bool)
      ensures this.material == material && this.pointer == pointer
    {
      this.material, this.pointer := material, pointer;
    }
  }

  class Cache {
    var entries: map<CacheKey, Entry>

    constructor ()
      ensures entries == map[]
    {
      entries := map[];
    }
  }

  class Provider {
    const site: Site
    const cache: Cache? // null when token caching is off
    var keys: map<KeyId, PublicKey>
    var memo: Option<(PublicKey, string)>

    /** The memo holds a true fingerprint. */
    ghost predicate Valid()
      reads this
    {
      memo.Some? ==> memo.value.1 == Fingerprint(memo.value.0.material)
    }

    ghost function Keys(): KeySet
      reads this
    {
      map id | id in keys :: keys[id].material
    }

    constructor (site: Site, cache: Cache?, keys: map<KeyId, PublicKey>)
      ensures Valid() && this.site == site && this.cache == cache && this.keys == keys
    {
      this.site, this.cache, this.keys, memo := site, cache, keys, None;
    }

    method CachedKeyFingerprint(key: PublicKey) returns (fp: string)
      requires Valid()
      modifies this`memo
      ensures Valid() && fp == Fingerprint(key.material)
    {
      if !key.pointer {
        return Fingerprint(key.material);
      }
      if memo.Some? && memo.value.0 == key {
        return memo.value.1;
      }
      fp := Fingerprint(key.material);
      if fp != "" {
        memo := Some((key, fp));
      }
    }

    method CurrentKeyFingerprint(header: Header) returns (fp: string)
      requires Valid()
      modifies this`memo
      ensures Valid()
      ensures fp == match Resolve(Keys(), header) case None => "" case Some(m) => Fingerprint(m)
    {
      var id := KeyId(header.alg, header.kid);
      if id !in keys {
        return "";
      }
      fp := CachedKeyFingerprint(keys[id]);
    }

    /** The cache has an entry for the token that the current keys honor. */
    ghost predicate Hits(token: string, getFails: bool)
      reads this, cache
    {
      && cache != null && !getFails && KeyOf(site, token) in cache.entries
      && Honored(cache.entries[KeyOf(site, token)], Keys())
    }

    /** verifyTokenSignature. `getFails` is an error from the cache, `live` says that the
        token's exp lies ahead. With or without the cache, whatever it holds, the caller gets
        the verdict of a signature check with the current keys; only the algorithm list
        differs, when it is empty, between a hit and a check. */
    method VerifyTokenSignature(w: World, ghost sites: set<Site>, token: string, policy: Policy,
        defaults: seq<string>, getFails: bool, live: bool)
      returns (r: Outcome)
      requires Valid() && JwtSyntax(w) && site in sites && Unambiguous(sites, token)
      requires policy.prebuilt == VerifierList(policy.methods, policy.defaultMethods)
      requires cache != null ==> EntriesOk(w, sites, cache.entries)
      modifies this`memo, cache
      ensures Valid() && (cache != null ==> EntriesOk(w, sites, cache.entries))
      ensures r == FreshVerdict(w, Keys(),
        if old(Hits(token, getFails)) then AllowedList(policy.methods, defaults)
        else VerifierList(policy.methods, defaults),
        token)
      ensures cache != null && old(Hits(token, getFails)) ==> cache.entries == old(cache.entries)
      ensures policy.methods != [] || defaults != [] ==>
        r == FreshVerdict(w, Keys(), VerifierList(policy.methods, defaults), token)
    {
      hide FreshVerdict, Vouches, Unambiguous;
      if cache == null {
        return Check(w, token, SignatureVerifier(policy, defaults));
      }
      var key := KeyOf(site, token);
      if !getFails && key in cache.entries && Usable(cache.entries[key]) {
        var entry := cache.entries[key];
        var fp := CurrentKeyFingerprint(entry.header.value);
        if fp == entry.fingerprint {
          HitAgrees(w, sites, site, token, entry, Keys(), AllowedList(policy.methods, defaults));
          if entry.header.value.alg !in AllowedList(policy.methods, defaults) {
            return Rejected;
          }
          return Accepted(entry.claims.value, entry.header.value);
        }
      }
      r := VerifyAndStore(w, sites, token, VerifierList(policy.methods, defaults), live);
    }

    /** The fingerprint of the key the current JWKS resolves for a header, or empty. */
    ghost function KeyFingerprint(header: Header): string
      reads this
    {
      match Resolve(Keys(), header)
      case None => ""
      case Some(key) => Fingerprint(key)
    }

    /** The part after a miss. */
    method VerifyAndStore(w: World, ghost sites: set<Site>, token: string, allowed: seq<string>, live: bool)
      returns (r: Outcome)
      requires Valid() && site in sites && cache != null && EntriesOk(w, sites, cache.entries)
      modifies this`memo, cache
      ensures Valid() && EntriesOk(w, sites, cache.entries)
      ensures r == FreshVerdict(w, Keys(), allowed, token)
      ensures cache.entries ==
        if r.Accepted? && live && KeyFingerprint(r.header) != ""
        then old(cache.entries)[KeyOf(site, token) := Entry(Some(r.claims), Some(r.header), KeyFingerprint(r.header))]
        else old(cache.entries)
    {
      r := Check(w, token, allowed);
      if r.Accepted? && live {
        AcceptedVouches(w, sites, site, token, Keys(), allowed);
        var used := keys[KeyId(r.header.alg, r.header.kid)];
        var fp := CachedKeyFingerprint(used);
        if fp != "" {
          cache.entries := cache.entries[KeyOf(site, token) := Entry(Some(r.claims), Some(r.header), fp)];
        }
      }
    }

    /** The JWT verifier's signature step against the current JWKS. */
    function Check(w: World, token: string, allowed: seq<string>): (r: Outcome)
      reads this
      ensures r == FreshVerdict(w, Keys(), allowed, token)
    {
      match w.parse(token)
      case None => Rejected
      case Some(p) =>
        var id := KeyId(p.header.alg, p.header.kid);
        if p.header.alg in allowed && id in keys && w.verifies(token, p.header.alg, keys[id].material)
        then Accepted(p.claims, p.header) else Rejected
    }
  }

  // Concurrent calls of several providers on one cache, key rotations and evictions.
  // Providers may share a site, as replicas of one service do, and still hold
  // different key sets.

  /** A call between two of its reads of shared state. `keys` and `allowed` are the
      values it read, `keysAt` and `allowedAt` the steps at which it read them; `hit`
      says that the cache answered. */
  datatype Phase =
    | Looking
    | Found(entry: Entry)
    | Matched(entry: Entry, keys: KeySet, keysAt: nat)
    | Missed
    | Built(allowed: seq<string>, allowedAt: nat)
    | Verified(keys: KeySet, keysAt: nat, allowed: seq<string>, allowedAt: nat, outcome: Outcome) // not yet stored
    | Done(keys: KeySet, keysAt: nat, allowed: seq<string>, allowedAt: nat, outcome: Outcome, hit: bool)

  datatype Call = Call(provider: nat, site: Site, token: string, methods: seq<string>, began: nat, phase: Phase)

  datatype State = State(
    step: nat, entries: map<CacheKey, Entry>, sites: map<nat, Site>, keys: map<nat, KeySet>, defaults: seq<string>,
    calls: map<nat, Call>)

  datatype Event =
    | Begin(c: nat, provider: nat, token: string, methods: seq<string>, cached: bool)
    | Lookup(c: nat, found: bool)
    | Compare(c: nat)
    | CheckAlgorithm(c: nat)
    | BuildVerifier(c: nat)
    | Verify(c: nat)
    | Save(c: nat, stored: bool)
    | Refresh(provider: nat, keys: KeySet)
    | ChangeDefaults(methods: seq<string>)
    | Evict(key: CacheKey)

  predicate Enabled(s: State, e: Event) {
    match e
    case Begin(c, p, _, _, _) => c !in s.calls && p in s.keys && p in s.sites
    case Lookup(c, found) =>
      c in s.calls && s.calls[c].phase.Looking? && (found ==> KeyOf(s.calls[c].site, s.calls[c].token) in s.entries)
    case Compare(c) => c in s.calls && s.calls[c].phase.Found? && s.calls[c].provider in s.keys
    case CheckAlgorithm(c) => c in s.calls && s.calls[c].phase.Matched?
    case BuildVerifier(c) => c in s.calls && s.calls[c].phase.Missed?
    case Verify(c) => c in s.calls && s.calls[c].phase.Built? && s.calls[c].provider in s.keys
    case Save(c, _) => c in s.calls && s.calls[c].phase.Verified?
    case Refresh(p, _) => p in s.keys
    case ChangeDefaults(_) => true
    case Evict(_) => true
  }

  function Advance(s: State, c: nat, phase: Phase): State
    requires c in s.calls
  {
    s.(step := s.step + 1, calls := s.calls[c := s.calls[c].(phase := phase)])
  }

  /** What a verification stores: nothing unless it accepted with a key that has a fingerprint. */
  function Stored(w: World, entries: map<CacheKey, Entry>, call: Call, keys: KeySet, allowed: seq<string>)
      : map<CacheKey, Entry>
  {
    if !FreshVerdict(w, keys, allowed, call.token).Accepted? then entries
    else
      var parsed := w.parse(call.token).value;
      var used := Resolve(keys, parsed.header).value;
      if Fingerprint(used) == "" then entries else entries[KeyOf(call.site, call.token) := EntryFor(parsed, used)]
  }

  function Effect(w: World, s: State, e: Event): State
    requires Enabled(s, e)
  {
    match e
    case Begin(c, p, token, methods, cached) =>
      var call := Call(p, s.sites[p], token, methods, s.step, if cached then Looking else Missed);
      s.(step := s.step + 1, calls := s.calls[c := call])
    case Lookup(c, found) =>
      Advance(s, c, if found then Found(s.entries[KeyOf(s.calls[c].site, s.calls[c].token)]) else Missed)
    case Compare(c) =>
      var entry, keys := s.calls[c].phase.entry, s.keys[s.calls[c].provider];
      Advance(s, c, if Honored(entry, keys) then Matched(entry, keys, s.step) else Missed)
    case CheckAlgorithm(c) =>
      var ph := s.calls[c].phase;
      var allowed := AllowedList(s.calls[c].methods, s.defaults);
      Advance(s, c, Done(ph.keys, ph.keysAt, allowed, s.step, HitVerdict(ph.entry, allowed), true))
    case BuildVerifier(c) => Advance(s, c, Built(VerifierList(s.calls[c].methods, s.defaults), s.step))
    case Verify(c) =>
      var call, keys := s.calls[c], s.keys[s.calls[c].provider];
      var outcome := FreshVerdict(w, keys, call.phase.allowed, call.token);
      Advance(s, c, Verified(keys, s.step, call.phase.allowed, call.phase.allowedAt, outcome))
    case Save(c, stored) =>
      var ph := s.calls[c].phase;
      var s' := Advance(s, c, Done(ph.keys, ph.keysAt, ph.allowed, ph.allowedAt, ph.outcome, false));
      if stored then s'.(entries := Stored(w, s.entries, s.calls[c], ph.keys, ph.allowed)) else s'
    case Refresh(p, keys) => s.(step := s.step + 1, keys := s.keys[p := keys])
    case ChangeDefaults(methods) => s.(step := s.step + 1, defaults := methods)
    case Evict(key) => s.(step := s.step + 1, entries := s.entries - {key})
  }

  ghost predicate Next(w: World, s: State, e: Event, s': State) {
    Enabled(s, e) && s' == Effect(w, s, e)
  }

  ghost predicate IsRun(w: World, states: seq<State>, events: seq<Event>) {
    && JwtSyntax(w)
    && |states| == |events| + 1
    && states[0].step == 0 && states[0].entries == map[] && states[0].calls == map[]
    && forall i :: 0 <= i < |events| ==> Next(w, states[i], events[i], states[i + 1])
  }

  ghost predicate CallOk(w: World, sites: set<Site>, call: Call) {
    call.site in sites &&
    match call.phase
    case Found(entry) => Vouches(w, sites, KeyOf(call.site, call.token), entry)
    case Matched(entry, keys, _) => Vouches(w, sites, KeyOf(call.site, call.token), entry) && Honored(entry, keys)
    case Verified(keys, _, allowed, _, outcome) => outcome == FreshVerdict(w, keys, allowed, call.token)
    case Done(keys, _, allowed, _, outcome, _) => Unambiguous(sites, call.token) ==>
      outcome == FreshVerdict(w, keys, allowed, call.token)
    case _ => true
  }

  ghost predicate Inv(w: World, sites: set<Site>, s: State) {
    && s.sites.Values == sites
    && EntriesOk(w, sites, s.entries)
    && forall c :: c in s.calls ==> CallOk(w, sites, s.calls[c])
  }

  lemma StoredIsOk(w: World, sites: set<Site>, entries: map<CacheKey, Entry>, call: Call, keys: KeySet,
      allowed: seq<string>)
    requires EntriesOk(w, sites, entries) && call.site in sites
    ensures EntriesOk(w, sites, Stored(w, entries, call, keys, allowed))
  {
    if FreshVerdict(w, keys, allowed, call.token).Accepted? {
      AcceptedVouches(w, sites, call.site, call.token, keys, allowed);
    }
  }

  lemma NextKeepsInv(w: World, sites: set<Site>, s: State, e: Event, s': State)
    requires JwtSyntax(w) && Inv(w, sites, s) && Next(w, s, e, s')
    ensures Inv(w, sites, s')
  {
    hide Vouches, Honored, Stored, FreshVerdict, Unambiguous;
    match e
    case CheckAlgorithm(c) =>
      var call := s.calls[c];
      if Unambiguous(sites, call.token) {
        HitAgrees(w, sites, call.site, call.token, call.phase.entry, call.phase.keys,
          AllowedList(call.methods, s.defaults));
        HonoredIsUsable(call.phase.entry, call.phase.keys);
      }
    case Save(c, _) => StoredIsOk(w, sites, s.entries, s.calls[c], s.calls[c].phase.keys, s.calls[c].phase.allowed);
    case _ =>
  }

  lemma HonoredIsUsable(entry: Entry, keys: KeySet)
    requires Honored(entry, keys)
    ensures Usable(entry)
  {
  }

  lemma {:induction false} RunKeepsInv(w: World, states: seq<State>, events: seq<Event>, n: nat)
    requires IsRun(w, states, events) && n < |states|
    ensures Inv(w, states[0].sites.Values, states[n])
  {
    if n > 0 {
      hide Next;
      RunKeepsInv(w, states, events, n - 1);
      NextKeepsInv(w, states[0].sites.Values, states[n - 1], events[n - 1], states[n]);
    }
  }

  /** The step `at`, no earlier than the call, is one at which its provider had these keys. */
  ghost predicate ReadKeys(states: seq<State>, n: nat, call: Call, keys: KeySet, at: nat)
    requires n < |states|
  {
    call.began < at < n && call.provider in states[at].keys && states[at].keys[call.provider] == keys
  }

  /** The list comes from the defaults of step `at`, as a hit or as a verifier reads them. */
  ghost predicate ReadAllowed(states: seq<State>, n: nat, call: Call, allowed: seq<string>, at: nat, hit: bool)
    requires n < |states|
  {
    && call.began < at < n
    && allowed == if hit then AllowedList(call.methods, states[at].defaults)
                  else VerifierList(call.methods, states[at].defaults)
  }

  ghost predicate RecordOk(states: seq<State>, n: nat, call: Call)
    requires n < |states|
  {
    && call.began < n
    && match call.phase
       case Matched(_, keys, keysAt) => ReadKeys(states, n, call, keys, keysAt)
       case Built(allowed, allowedAt) => ReadAllowed(states, n, call, allowed, allowedAt, false)
       case Verified(keys, keysAt, allowed, allowedAt, _) =>
         ReadKeys(states, n, call, keys, keysAt) && ReadAllowed(states, n, call, allowed, allowedAt, false)
       case Done(keys, keysAt, allowed, allowedAt, _, hit) =>
         ReadKeys(states, n, call, keys, keysAt) && ReadAllowed(states, n, call, allowed, allowedAt, hit)
       case _ => true
  }

  lemma {:induction false} RunKeepsRecords(w: World, states: seq<State>, events: seq<Event>, n: nat)
    requires IsRun(w, states, events) && n < |states|
    ensures states[n].step == n
    ensures forall c :: c in states[n].calls ==> RecordOk(states, n, states[n].calls[c])
  {
    if n > 0 {
      RunKeepsRecords(w, states, events, n - 1);
      assert Next(w, states[n - 1], events[n - 1], states[n]);
      forall c | c in states[n].calls
        ensures RecordOk(states, n, states[n].calls[c])
      {
        RecordStep(w, states, n, events[n - 1], c);
      }
    }
  }

  lemma RecordStep(w: World, states: seq<State>, n: nat, e: Event, c: nat)
    requires 0 < n < |states| && Next(w, states[n - 1], e, states[n]) && states[n - 1].step == n - 1
    requires c in states[n].calls
    requires c in states[n - 1].calls ==> RecordOk(states, n - 1, states[n - 1].calls[c])
    ensures RecordOk(states, n, states[n].calls[c])
  {
    if c in states[n - 1].calls {
      RecordLater(states, n, states[n - 1].calls[c]);
      OwnStep(w, states, n, e, c);
    } else {
      hide Stored, FreshVerdict, Honored, Resolve, KeyOf, HitVerdict;
    }
  }

  lemma RecordLater(states: seq<State>, n: nat, call: Call)
    requires 0 < n < |states| && RecordOk(states, n - 1, call)
    ensures RecordOk(states, n, call)
  {
    hide AllowedList, VerifierList;
  }

  lemma OwnStep(w: World, states: seq<State>, n: nat, e: Event, c: nat)
    requires 0 < n < |states| && Next(w, states[n - 1], e, states[n]) && states[n - 1].step == n - 1
    requires c in states[n - 1].calls && RecordOk(states, n - 1, states[n - 1].calls[c])
    requires RecordOk(states, n, states[n - 1].calls[c])
    ensures c in states[n].calls && RecordOk(states, n, states[n].calls[c])
  {
    hide Stored, FreshVerdict, Honored, Resolve, KeyOf, HitVerdict, AllowedList, VerifierList;
  }

  /** The one way a call's result can differ from a fresh verification: a hit, no algorithm listed
      anywhere, and a token the JWT package's own list would let pass. */
  ghost predicate Shut(w: World, call: Call, keys: KeySet, defaults: seq<string>)
    requires call.phase.Done?
  {
    call.phase.hit && call.methods == [] && defaults == [] && FreshVerdict(w, keys, JWT_DEFAULTS, call.token).Accepted?
  }

  /** Transparency: however calls, rotations, changes of the default algorithms, evictions
      and other providers' calls interleave, a finished call returned the fresh verdict for a
      key set its provider had and the verifier list for defaults there were, both during the
      call, exactly unless it was shut out by an empty list. */
  lemma CacheIsTransparent(w: World, states: seq<State>, events: seq<Event>, n: nat, c: nat)
    requires IsRun(w, states, events) && n < |states| && c in states[n].calls && states[n].calls[c].phase.Done?
    requires Unambiguous(states[0].sites.Values, states[n].calls[c].token)
    ensures
      var call := states[n].calls[c];
      && ReadKeys(states, n, call, call.phase.keys, call.phase.keysAt)
      && ReadAllowed(states, n, call, call.phase.allowed, call.phase.allowedAt, call.phase.hit)
      && call.phase.outcome == FreshVerdict(w, call.phase.keys, call.phase.allowed, call.token)
      && var defaults := states[call.phase.allowedAt].defaults;
         call.phase.outcome == FreshVerdict(w, call.phase.keys, VerifierList(call.methods, defaults), call.token)
         <==> !Shut(w, call, call.phase.keys, defaults)
  {
    RunKeepsInv(w, states, events, n);
    RunKeepsRecords(w, states, events, n);
    assert RecordOk(states, n, states[n].calls[c]);
    assert CallOk(w, states[0].sites.Values, states[n].calls[c]);
  }

  /** With no rotation and no change of defaults during the call, that is the verdict for
      the current key set and the policy's current list. */
  lemma CacheIsInvisible(w: World, states: seq<State>, events: seq<Event>, n: nat, c: nat, keys: KeySet,
      defaults: seq<string>)
    requires IsRun(w, states, events) && n < |states| && c in states[n].calls && states[n].calls[c].phase.Done?
    requires Unambiguous(states[0].sites.Values, states[n].calls[c].token)
    requires forall k :: states[n].calls[c].began <= k <= n ==>
      && states[k].defaults == defaults
      && states[n].calls[c].provider in states[k].keys && states[k].keys[states[n].calls[c].provider] == keys
    ensures
      var call := states[n].calls[c];
      call.phase.outcome == FreshVerdict(w, keys, VerifierList(call.methods, defaults), call.token)
      <==> !Shut(w, call, keys, defaults)
  {
    CacheIsTransparent(w, states, events, n, c);
  }

  // Keys, defaults, calls and entries, read off the run

  /** The default algorithms after the first n events. */
  function DefaultsAfter(initial: seq<string>, events: seq<Event>, n: nat): seq<string>
    requires n <= |events|
  {
    if n == 0 then initial
    else if events[n - 1].ChangeDefaults? then events[n - 1].methods
    else DefaultsAfter(initial, events, n - 1)
  }

  /** The key set of provider p after the first n events. */
  function KeysAfter(initial: KeySet, events: seq<Event>, n: nat, p: nat): KeySet
    requires n <= |events|
  {
    if n == 0 then initial
    else if events[n - 1].Refresh? && events[n - 1].provider == p then events[n - 1].keys
    else KeysAfter(initial, events, n - 1, p)
  }

  /** What a call reads at a step is what the last change before that step left. */
  lemma {:induction false} WorldIsHistory(w: World, states: seq<State>, events: seq<Event>, n: nat, p: nat)
    requires IsRun(w, states, events) && n < |states|
    ensures states[n].sites == states[0].sites && states[n].keys.Keys == states[0].keys.Keys
    ensures states[n].defaults == DefaultsAfter(states[0].defaults, events, n)
    ensures p in states[n].keys ==> states[n].keys[p] == KeysAfter(states[0].keys[p], events, n, p)
  {
    if n > 0 {
      assert Next(w, states[n - 1], events[n - 1], states[n]);
      hide Next;
      WorldIsHistory(w, states, events, n - 1, p);
      WorldStep(w, states[n - 1], events[n - 1], states[n], p);
    }
  }

  lemma WorldStep(w: World, s: State, e: Event, s': State, p: nat)
    requires Next(w, s, e, s')
    ensures s'.sites == s.sites && s'.keys.Keys == s.keys.Keys
    ensures s'.defaults == if e.ChangeDefaults? then e.methods else s.defaults
    ensures p in s.keys ==> s'.keys[p] == if e.Refresh? && e.provider == p then e.keys else s.keys[p]
  {
    hide Stored, FreshVerdict, Honored, KeyOf, HitVerdict;
  }

  /** The part of a call that never changes. */
  predicate Begun(call: Call, provider: nat, site: Site, token: string, methods: seq<string>, began: nat) {
    && call.provider == provider && call.site == site && call.token == token
    && call.methods == methods && call.began == began
  }

  lemma CallStep(w: World, s: State, e: Event, s': State, c: nat)
    requires Next(w, s, e, s') && c in s.calls
    ensures c in s'.calls
    ensures
      var call := s.calls[c];
      Begun(s'.calls[c], call.provider, call.site, call.token, call.methods, call.began)
    ensures e == CheckAlgorithm(c) ==> !s.calls[c].phase.Done? && s'.calls[c].phase.Done? && s'.calls[c].phase.hit
    ensures s.calls[c].phase.Done? ==> s'.calls[c] == s.calls[c]
    ensures s'.calls[c].phase.Done? && !s.calls[c].phase.Done? ==> (s'.calls[c].phase.hit <==> e == CheckAlgorithm(c))
  {
    hide Stored, FreshVerdict, Honored, KeyOf, HitVerdict;
  }

  lemma BeginStep(w: World, s: State, e: Event, s': State)
    requires Next(w, s, e, s') && e.Begin?
    ensures e.c in s'.calls && e.provider in s.sites && !s'.calls[e.c].phase.Done?
    ensures Begun(s'.calls[e.c], e.provider, s.sites[e.provider], e.token, e.methods, s.step)
  {
  }

  /** A call keeps what it was begun with, and it was answered by the cache exactly when its last
      step was the algorithm check of a hit. */
  lemma {:induction false} CallIsBegun(w: World, states: seq<State>, events: seq<Event>, k: nat, n: nat)
    requires IsRun(w, states, events) && k < n < |states| && events[k].Begin?
    ensures events[k].c in states[n].calls && events[k].provider in states[k].sites
    ensures
      var e, call := events[k], states[n].calls[events[k].c];
      && Begun(call, e.provider, states[k].sites[e.provider], e.token, e.methods, k)
      && (call.phase.Done? ==> (call.phase.hit <==> CheckAlgorithm(e.c) in events[k + 1..n]))
      && (!call.phase.Done? ==> CheckAlgorithm(e.c) !in events[k + 1..n])
    decreases n
  {
    assert Next(w, states[n - 1], events[n - 1], states[n]);
    hide Next;
    if k + 1 < n {
      CallIsBegun(w, states, events, k, n - 1);
      CallStep(w, states[n - 1], events[n - 1], states[n], events[k].c);
      assert events[k + 1..n] == events[k + 1..n - 1] + [events[n - 1]];
    } else {
      RunKeepsRecords(w, states, events, k);
      BeginStep(w, states[k], events[k], states[n]);
    }
  }

  /** Step e, in state s, files an entry under key: the save of an accepted token whose key has a
      fingerprint. */
  predicate Files(w: World, s: State, e: Event, key: CacheKey) {
    && e.Save? && e.stored && e.c in s.calls && s.calls[e.c].phase.Verified?
    && KeyOf(s.calls[e.c].site, s.calls[e.c].token) == key
    && var call := s.calls[e.c];
       FreshVerdict(w, call.phase.keys, call.phase.allowed, call.token).Accepted?
       && Fingerprint(Resolve(call.phase.keys, w.parse(call.token).value.header).value) != ""
  }

  ghost predicate OnFile(w: World, states: seq<State>, events: seq<Event>, n: nat, key: CacheKey)
    requires n <= |events| < |states|
  {
    exists k :: 0 <= k < n && Files(w, states[k], events[k], key) && forall m :: k < m < n ==> events[m] != Evict(key)
  }

  lemma OnFileLater(w: World, states: seq<State>, events: seq<Event>, n: nat, key: CacheKey)
    requires n < |events| < |states|
    ensures OnFile(w, states, events, n + 1, key) <==>
      Files(w, states[n], events[n], key) || (OnFile(w, states, events, n, key) && events[n] != Evict(key))
  {
    hide Files;
    if OnFile(w, states, events, n, key) && events[n] != Evict(key) {
      var k :| 0 <= k < n && Files(w, states[k], events[k], key) && forall m :: k < m < n ==> events[m] != Evict(key);
      assert 0 <= k < n + 1 && forall m :: k < m < n + 1 ==> events[m] != Evict(key);
    }
    if OnFile(w, states, events, n + 1, key) && !Files(w, states[n], events[n], key) {
      var k :| 0 <= k < n + 1 && Files(w, states[k], events[k], key)
        && forall m :: k < m < n + 1 ==> events[m] != Evict(key);
      assert k < n;
    }
  }

  lemma EntriesStep(w: World, s: State, e: Event, s': State, key: CacheKey)
    requires Next(w, s, e, s')
    ensures key in s'.entries <==> Files(w, s, e, key) || (key in s.entries && e != Evict(key))
  {
    hide FreshVerdict, Honored;
  }

  /** The cache holds a key exactly when the save of an accepted token filed it and nothing evicted
      it since. */
  lemma {:induction false} EntriesAreHistory(w: World, states: seq<State>, events: seq<Event>, n: nat, key: CacheKey)
    requires IsRun(w, states, events) && n < |states|
    ensures key in states[n].entries <==> OnFile(w, states, events, n, key)
  {
    if n > 0 {
      assert Next(w, states[n - 1], events[n - 1], states[n]);
      hide Next, OnFile, Files;
      EntriesAreHistory(w, states, events, n - 1, key);
      OnFileLater(w, states, events, n - 1, key);
      EntriesStep(w, states[n - 1], events[n - 1], states[n], key);
    }
  }

  ghost predicate Ends(w: World, states: seq<State>, events: seq<Event>, s: State) {
    IsRun(w, states, events) && states[|events|] == s
  }

  lemma Extend(w: World, states: seq<State>, events: seq<Event>, s: State, e: Event)
      returns (states': seq<State>, events': seq<Event>)
    requires Ends(w, states, events, s) && Enabled(s, e)
    ensures Ends(w, states', events', Effect(w, s, e))
  {
    states', events' := states + [Effect(w, s, e)], events + [e];
  }

  /** A provider whose default list was emptied verifies a token and stores the result. */
  lemma MissWithoutList(w: World, site: Site, keys: KeySet, token: string)
      returns (states: seq<State>, events: seq<Event>, s: State)
    requires JwtSyntax(w) && FreshVerdict(w, keys, JWT_DEFAULTS, token).Accepted?
    requires Fingerprint(Resolve(keys, w.parse(token).value.header).value) != ""
    ensures Ends(w, states, events, s) && s.sites == map[0 := site] && s.keys == map[0 := keys] && s.defaults == []
    ensures s.calls.Keys == {0} && s.calls[0].phase.Done? && s.calls[0].phase.outcome.Accepted?
    ensures KeyOf(site, token) in s.entries && Honored(s.entries[KeyOf(site, token)], keys)
  {
    s := State(0, map[], map[0 := site], map[0 := keys], JWT_DEFAULTS, map[]);
    states, events := [s], [];
    hide Ends;
    states, events := Extend(w, states, events, s, ChangeDefaults([]));
    s := Effect(w, s, ChangeDefaults([]));
    states, events := Extend(w, states, events, s, Begin(0, 0, token, [], true));
    s := Effect(w, s, Begin(0, 0, token, [], true));
    states, events := Extend(w, states, events, s, Lookup(0, false));
    s := Effect(w, s, Lookup(0, false));
    states, events := Extend(w, states, events, s, BuildVerifier(0));
    s := Effect(w, s, BuildVerifier(0));
    states, events := Extend(w, states, events, s, Verify(0));
    s := Effect(w, s, Verify(0));
    states, events := Extend(w, states, events, s, Save(0, true));
    s := Effect(w, s, Save(0, true));
  }

  /** With the default list emptied and none in the policy, every token that the JWT package's
      own list lets pass is accepted on the miss and refused on the hit that follows. */
  lemma EmptyListSplits(w: World, site: Site, keys: KeySet, token: string)
      returns (states: seq<State>, events: seq<Event>, s: State)
    requires JwtSyntax(w) && FreshVerdict(w, keys, JWT_DEFAULTS, token).Accepted?
    requires Fingerprint(Resolve(keys, w.parse(token).value.header).value) != ""
    ensures Ends(w, states, events, s) && s.keys == map[0 := keys] && s.defaults == []
    ensures {0, 1} <= s.calls.Keys && s.calls[0].phase.Done? && s.calls[1].phase.Done?
    ensures s.calls[0].phase.outcome.Accepted? && s.calls[1].phase.outcome == Rejected
  {
    states, events, s := MissWithoutList(w, site, keys, token);
    hide Ends;
    states, events := Extend(w, states, events, s, Begin(1, 0, token, [], true));
    s := Effect(w, s, Begin(1, 0, token, [], true));
    states, events := Extend(w, states, events, s, Lookup(1, true));
    s := Effect(w, s, Lookup(1, true));
    states, events := Extend(w, states, events, s, Compare(1));
    s := Effect(w, s, Compare(1));
    states, events := Extend(w, states, events, s, CheckAlgorithm(1));
    s := Effect(w, s, CheckAlgorithm(1));
  }

  /** When the JWKS drops the key of a cached token, the next call does not honor the entry and
      refuses the token. */
  lemma RotationRefuses(w: World, site: Site, keys: KeySet, token: string)
      returns (states: seq<State>, events: seq<Event>, s: State)
    requires JwtSyntax(w) && FreshVerdict(w, keys, JWT_DEFAULTS, token).Accepted?
    requires Fingerprint(Resolve(keys, w.parse(token).value.header).value) != ""
    ensures Ends(w, states, events, s) && KeyOf(site, token) in s.entries
    ensures {0, 1} <= s.calls.Keys && s.calls[0].phase.Done? && s.calls[1].phase.Done?
    ensures s.calls[0].phase.outcome.Accepted? && s.calls[1].phase.outcome == Rejected && !s.calls[1].phase.hit
  {
    states, events, s := MissWithoutList(w, site, keys, token);
    hide Ends;
    states, events := Extend(w, states, events, s, Refresh(0, map[]));
    s := Effect(w, s, Refresh(0, map[]));
    states, events := Extend(w, states, events, s, Begin(1, 0, token, [], true));
    s := Effect(w, s, Begin(1, 0, token, [], true));
    states, events := Extend(w, states, events, s, Lookup(1, true));
    s := Effect(w, s, Lookup(1, true));
    states, events := Extend(w, states, events, s, Compare(1));
    s := Effect(w, s, Compare(1));
    states, events := Extend(w, states, events, s, BuildVerifier(1));
    s := Effect(w, s, BuildVerifier(1));
    states, events := Extend(w, states, events, s, Verify(1));
    s := Effect(w, s, Verify(1));
    states, events := Extend(w, states, events, s, Save(1, true));
    s := Effect(w, s, Save(1, true));
  }

  /** A key that left the JWKS before a call began vouches for nothing in it, cached or not. */
  lemma RemovedKeyIsDead(w: World, states: seq<State>, events: seq<Event>, n: nat, c: nat)
    requires IsRun(w, states, events) && n < |states| && c in states[n].calls && states[n].calls[c].phase.Done?
    requires Unambiguous(states[0].sites.Values, states[n].calls[c].token) && states[n].calls[c].phase.outcome.Accepted?
    ensures
      var call := states[n].calls[c];
      exists k, key :: call.began < k < n && call.provider in states[k].keys
        && Resolve(states[k].keys[call.provider], call.phase.outcome.header) == Some(key)
        && w.verifies(call.token, call.phase.outcome.header.alg, key)
  {
    CacheIsTransparent(w, states, events, n, c);
    var call := states[n].calls[c];
    var key := Resolve(call.phase.keys, call.phase.outcome.header).value;
    assert Resolve(states[call.phase.keysAt].keys[call.provider], call.phase.outcome.header) == Some(key);
  }

  predicate CanMove(s: State, c: nat) {
    Enabled(s, Lookup(c, false)) || Enabled(s, Compare(c)) || Enabled(s, CheckAlgorithm(c))
      || Enabled(s, BuildVerifier(c)) || Enabled(s, Verify(c)) || Enabled(s, Save(c, true))
  }

  lemma {:induction false} ProviderStaysKnown(w: World, states: seq<State>, events: seq<Event>, n: nat, c: nat)
    requires IsRun(w, states, events) && n < |states| && c in states[n].calls
    ensures states[n].calls[c].provider in states[n].keys
  {
    hide Next;
    WorldStep(w, states[n - 1], events[n - 1], states[n], 0);
    if c in states[n - 1].calls {
      ProviderStaysKnown(w, states, events, n - 1, c);
      CallStep(w, states[n - 1], events[n - 1], states[n], c);
    } else {
      NewCallBegan(w, states[n - 1], events[n - 1], states[n], c);
    }
  }

  lemma NewCallBegan(w: World, s: State, e: Event, s': State, c: nat)
    requires Next(w, s, e, s') && c in s'.calls && c !in s.calls
    ensures s'.calls[c].provider in s.keys
  {
    hide Stored, FreshVerdict, Honored, KeyOf, HitVerdict;
  }

  /** Calls never wait for each other, nor for rotations, and entries may go at any time. */
  lemma NobodyWaits(w: World, states: seq<State>, events: seq<Event>, n: nat, c: nat, key: CacheKey)
    requires IsRun(w, states, events) && n < |states|
    ensures c in states[n].calls && !states[n].calls[c].phase.Done? ==> CanMove(states[n], c)
    ensures Enabled(states[n], Evict(key))
  {
    if c in states[n].calls {
      ProviderStaysKnown(w, states, events, n, c);
    }
  }
}
