/**
 The claim policy of the OIDC provider: the registered claims, which the JWT verifier
 checks, and the provider's own checks on top of them. The checks are early-return loops;
 they are proved to decide one declarative policy.
 */
module ClaimPolicy {
  import opened Wrappers
  import opened Conditions
  import opened Machine
  import J = JwtVerifier
  import TokenLifetime

  /** Verifier options. Times are in nanoseconds. */
  datatype Ops = Ops(
    methods: seq<string>,
    withoutClaims: bool,
    leeway: int,
    expirationRequired: bool,
    notBeforeRequired: bool,
    issuedAt: bool,
    issuer: string,
    subject: string,
    audience: seq<string>,
    requiredClaims: seq<string>,
    ignoredClaims: seq<string>,
    allowMissingSubject: bool,
    expectedClaims: map<string, string>,
    allowedClientIds: seq<string>,
    requiredScopes: seq<string>,
    requireAuthorizedParty: bool,
    allowedParties: seq<string>,
    maxLifetime: Int64,
    celRules: seq<string>)

  /** The provider's built-in options: nothing set but the leeway of 30 seconds. */
  const BUILTIN: Ops :=
    Ops([], false, 30_000_000_000, false, false, false, "", "", [], [], [], false, map[], [], [], false, [], 0, [])

  datatype AudienceMode = Enforce | Warn | Disabled

  datatype Refusal = Invalid | AudienceNotConfigured | CelFailed

  /** Conversions of the libraries: the registered claims golang-jwt reads from a claim set, and
      the truncation of a JSON number to int64. `required` is the current value of the exported
      list of claims required by default. */
  datatype Decoder = Decoder(env: Env, registered: Claims -> J.Claims, int64: real -> Int64, required: seq<string>)

  // The policy

  predicate AudienceOk(mode: AudienceMode, ops: Ops) {
    ops.audience != [] || !mode.Enforce?
  }

  predicate Present(ops: Ops, name: string, c: Claims) {
    || name in ops.ignoredClaims
    || (name == "sub" && ops.allowMissingSubject)
    || (name in c && (name == "sub" ==> c[name].Str? && c[name].s != ""))
  }

  function Required(d: Decoder, ops: Ops): seq<string> {
    if ops.requiredClaims == [] then d.required else ops.requiredClaims
  }

  predicate RequiredOk(d: Decoder, ops: Ops, c: Claims) {
    forall n :: n in Required(d, ops) ==> Present(ops, n, c)
  }

  predicate ExpectedOk(d: Decoder, ops: Ops, c: Claims) {
    forall n :: n in ops.expectedClaims && n !in ops.ignoredClaims ==>
      n in c && d.env.sprint(c[n]) == ops.expectedClaims[n]
  }

  /** client_id, or azp when it is absent. */
  function ClientId(c: Claims): Option<Json> {
    if "client_id" in c then Some(c["client_id"]) else if "azp" in c then Some(c["azp"]) else None
  }

  predicate ClientOk(ops: Ops, c: Claims) {
    ops.allowedClientIds != [] ==>
      ClientId(c).Some? && ClientId(c).value.Str? && ClientId(c).value.s in ops.allowedClientIds
  }

  /** Despite its name the list is satisfied by any one of its scopes. */
  predicate ScopesOk(ops: Ops, c: Claims) {
    ops.requiredScopes != [] ==>
      && "scope" in c && (c["scope"].Str? || c["scope"].Arr?)
      && exists s :: s in ops.requiredScopes && Carries(c, s)
  }

  predicate PartyOk(ops: Ops, c: Claims) {
    ops.requireAuthorizedParty ==>
      "azp" in c && c["azp"].Str? && (ops.allowedParties == [] || c["azp"].s in ops.allowedParties)
  }

  function AsInt64(d: Decoder, c: Claims, name: string): Option<Int64> {
    if name in c && c[name].Number? then Some(d.int64(c[name].n)) else None
  }

  predicate LifetimeOk(d: Decoder, ops: Ops, c: Claims) {
    ops.maxLifetime > 0 ==>
      && "exp" in c && c["exp"].Number? && "iat" in c && c["iat"].Number?
      && TokenLifetime.ValidateTokenLifetime(d.int64(c["exp"].n), d.int64(c["iat"].n), ops.maxLifetime).Fine?
  }

  predicate Compiles(env: Env, ops: Ops) {
    forall i :: 0 <= i < |ops.celRules| ==> env.cel(ops.celRules[i]).Some?
  }

  predicate CelOk(env: Env, ops: Ops, c: Claims)
    requires Compiles(env, ops)
  {
    forall i :: 0 <= i < |ops.celRules| ==> env.cel(ops.celRules[i]).value(c)
  }

  /** The provider's checks, by the error they lead to. */
  predicate ShapeOk(d: Decoder, ops: Ops, c: Claims) {
    RequiredOk(d, ops, c) && ExpectedOk(d, ops, c) && ClientOk(ops, c) && ScopesOk(ops, c) && PartyOk(ops, c)
      && LifetimeOk(d, ops, c)
  }

  function Verdict(d: Decoder, mode: AudienceMode, ops: Ops, c: Claims): Option<Refusal>
    requires Compiles(d.env, ops)
  {
    if ops.withoutClaims then None
    else if !AudienceOk(mode, ops) then Some(AudienceNotConfigured)
    else if !ShapeOk(d, ops, c) then Some(Invalid)
    else if !CelOk(d.env, ops, c) then Some(CelFailed)
    else None
  }

  // The checks

  method ValidateRequiredClaims(d: Decoder, ops: Ops, c: Claims) returns (ok: bool)
    ensures ok <==> RequiredOk(d, ops, c)
  {
    var required := ops.requiredClaims;
    if |required| == 0 {
      required := d.required;
    }
    for i := 0 to |required|
      invariant forall n :: n in required[..i] ==> Present(ops, n, c)
    {
      var claim := required[i];
      assert claim in Required(d, ops);
      if claim in ops.ignoredClaims {
        continue;
      }
      if claim == "sub" && ops.allowMissingSubject {
        continue;
      }
      if claim !in c {
        return false;
      }
      if claim == "sub" {
        var value := c[claim];
        if !value.Str? || value.s == "" {
          return false;
        }
      }
    }
    assert required[..|required|] == required;
    return true;
  }

  method ValidateExpectedClaims(d: Decoder, ops: Ops, c: Claims) returns (ok: bool)
    ensures ok <==> ExpectedOk(d, ops, c)
  {
    var todo := ops.expectedClaims.Keys;
    while todo != {}
      invariant todo <= ops.expectedClaims.Keys
      invariant forall n :: n in ops.expectedClaims && n !in todo && n !in ops.ignoredClaims ==>
        n in c && d.env.sprint(c[n]) == ops.expectedClaims[n]
      decreases |todo|
    {
      var claim :| claim in todo;
      todo := todo - {claim};
      if claim in ops.ignoredClaims {
        continue;
      }
      if claim !in c {
        return false;
      }
      if d.env.sprint(c[claim]) != ops.expectedClaims[claim] {
        return false;
      }
    }
    return true;
  }

  method ValidateAllowedClientIds(ops: Ops, c: Claims) returns (ok: bool)
    ensures ok <==> ClientOk(ops, c)
  {
    if |ops.allowedClientIds| == 0 {
      return true;
    }
    var clientId := None;
    if "client_id" in c {
      clientId := Some(c["client_id"]);
    } else if "azp" in c {
      clientId := Some(c["azp"]);
    }
    if clientId.None? || !clientId.value.Str? {
      return false;
    }
    return clientId.value.s in ops.allowedClientIds;
  }

  method ValidateRequiredScopes(ops: Ops, c: Claims) returns (ok: bool)
    ensures ok <==> ScopesOk(ops, c)
  {
    if |ops.requiredScopes| == 0 {
      return true;
    }
    if "scope" !in c || !(c["scope"].Str? || c["scope"].Arr?) {
      return false;
    }
    for i := 0 to |ops.requiredScopes|
      invariant forall s :: s in ops.requiredScopes[..i] ==> !Carries(c, s)
    {
      ScopesMeaning(c, ops.requiredScopes[i]);
      if ops.requiredScopes[i] in ScopesOf(c) {
        return true;
      }
    }
    assert ops.requiredScopes[..|ops.requiredScopes|] == ops.requiredScopes;
    return false;
  }

  method ValidateCelRules(env: Env, ops: Ops, c: Claims) returns (ok: bool)
    requires Compiles(env, ops)
    ensures ok <==> CelOk(env, ops, c)
  {
    for i := 0 to |ops.celRules|
      invariant forall j :: 0 <= j < i ==> env.cel(ops.celRules[j]).value(c)
    {
      if !env.cel(ops.celRules[i]).value(c) {
        return false;
      }
    }
    return true;
  }

  /** validateClaims: the checks one after the other decide the policy, and report the audience
      before the shape of the claims and that before the CEL rules. */
  method ValidateClaims(d: Decoder, mode: AudienceMode, ops: Ops, c: Claims) returns (e: Option<Refusal>)
    requires Compiles(d.env, ops)
    ensures e == Verdict(d, mode, ops, c)
  {
    hide RequiredOk, ExpectedOk, ClientOk, ScopesOk, CelOk;
    if ops.withoutClaims {
      return None;
    }
    if |ops.audience| == 0 && mode.Enforce? {
      return Some(AudienceNotConfigured);
    }
    var ok := ValidateRequiredClaims(d, ops, c);
    if !ok {
      return Some(Invalid);
    }
    ok := ValidateExpectedClaims(d, ops, c);
    if !ok {
      return Some(Invalid);
    }
    ok := ValidateAllowedClientIds(ops, c);
    if !ok {
      return Some(Invalid);
    }
    ok := ValidateRequiredScopes(ops, c);
    if !ok {
      return Some(Invalid);
    }
    if ops.requireAuthorizedParty {
      if "azp" !in c || !c["azp"].Str? {
        return Some(Invalid);
      }
      if |ops.allowedParties| > 0 && c["azp"].s !in ops.allowedParties {
        return Some(Invalid);
      }
    }
    if ops.maxLifetime > 0 {
      var exp, iat := AsInt64(d, c, "exp"), AsInt64(d, c, "iat");
      if exp.None? || iat.None? {
        return Some(Invalid);
      }
      if !TokenLifetime.ValidateTokenLifetime(exp.value, iat.value, ops.maxLifetime).Fine? {
        return Some(Invalid);
      }
    }
    ok := ValidateCelRules(d.env, ops, c);
    return if ok then None else Some(CelFailed);
  }

  // The registered claims

  /** The options of the JWT verifier; the discovery issuer stands in for a missing one. */
  function RegisteredOptions(ops: Ops, discovered: string): J.Options {
    J.Options(ops.leeway, ops.expirationRequired, ops.notBeforeRequired, ops.issuedAt,
              if ops.issuer == "" then discovered else ops.issuer, ops.subject, "", [], ops.audience, false)
  }

  /** applyPolicy at clock value now. */
  function Apply(d: Decoder, mode: AudienceMode, discovered: string, ops: Ops, c: Claims, now: int): Option<Refusal>
    requires Compiles(d.env, ops)
  {
    if ops.withoutClaims then None
    else if J.ValidateClaims(RegisteredOptions(ops, discovered), d.registered(c), now, false).Some? then Some(Invalid)
    else Verdict(d, mode, ops, c)
  }

  /** What the policy demands of the registered claims. The issuer is the configured one, or else
      the discovered one. */
  predicate RegisteredOk(discovered: string, ops: Ops, r: J.Claims, now: int) {
    && (r.exp.Some? ==> now < r.exp.value + ops.leeway)
    && (ops.expirationRequired ==> r.exp.Some?)
    && (r.nbf.Some? ==> r.nbf.value - ops.leeway <= now)
    && (ops.notBeforeRequired ==> r.nbf.Some?)
    && (ops.issuedAt && r.iat.Some? ==> r.iat.value - ops.leeway <= now)
    && (ops.issuer != "" ==> r.iss == ops.issuer)
    && (ops.issuer == "" && discovered != "" ==> r.iss == discovered)
    && (ops.subject != "" ==> r.sub == ops.subject)
    && (ops.audience != [] ==> exists a :: a in r.aud && a in ops.audience)
  }

  /** Everything the policy demands of claims. */
  predicate Satisfied(d: Decoder, mode: AudienceMode, discovered: string, ops: Ops, c: Claims, now: int)
    requires Compiles(d.env, ops)
  {
    ops.withoutClaims ||
    (RegisteredOk(discovered, ops, d.registered(c), now)
     && AudienceOk(mode, ops) && ShapeOk(d, ops, c) && CelOk(d.env, ops, c))
  }

  lemma ApplyDecides(d: Decoder, mode: AudienceMode, discovered: string, ops: Ops, c: Claims, now: int)
    requires Compiles(d.env, ops)
    ensures Apply(d, mode, discovered, ops, c, now).None? <==> Satisfied(d, mode, discovered, ops, c, now)
  {
    J.AcceptedClaims(RegisteredOptions(ops, discovered), d.registered(c), now, false);
  }
}
