/**
 The ways a token can be validated: the plain path, automatic preset selection,
 per-call options, and a preset named by the caller. Each path is written out as the
 provider runs it; the theorems compare them with one declarative policy check.
 */
module TokenPaths {
  import opened Wrappers
  import opened SignatureCache
  import opened ClaimPolicy
  import Conditions
  import PresetSelection

  datatype Error =
    | TokenInvalid
    | JwksStale
    | BadCelRule
    | TokenRevoked
    | RevocationCheck
    | IntrospectionUnavailable
    | ClaimsRefused(reason: Refusal)

  type ValidationOption = Ops -> Ops

  datatype Answer = Yes | No | Unavailable

  /** What the world answers during one call: keys and parser, the current default algorithms,
      whether the token cache has an entry the keys honor, the staleness budget, the clock, the
      libraries' conversions and CEL, the revocation storage and the introspection endpoint. */
  datatype Env = Env(
    w: World, keys: KeySet, defaults: seq<string>, hit: bool, stale: bool, now: int,
    decoder: Decoder,
    revoked: string -> Answer,
    active: string -> Answer)

  datatype ItemType = ByJti | ByKid | ByToken

  datatype Config = Config(
    verifierOptions: Option<Ops>,
    presets: map<string, seq<ValidationOption>>,
    rules: seq<PresetSelection.Indexed>, // sorted, with the unusable ones removed
    audienceMode: AudienceMode, issuer: string, // the discovered one
    storage: bool, failOpen: bool, itemType: ItemType,
    introspection: bool, introspectionFailOpen: bool)

  ghost predicate RulesUsable(cfg: Config) {
    forall i :: 0 <= i < |cfg.rules| ==> PresetSelection.Usable(cfg.rules[i].rule)
  }

  /** A provider whose construction succeeded: its CEL rules compiled. */
  ghost predicate Constructed(env: Env, cfg: Config) {
    && RulesUsable(cfg)
    && CelCompiles(env, DefaultOps(cfg))
    && forall n :: n in cfg.presets ==> CelCompiles(env, PresetOps(cfg, n))
  }

  predicate CelCompiles(env: Env, ops: Ops) {
    Compiles(env.decoder.env, ops)
  }

  function ApplyAll(ops: Ops, options: seq<ValidationOption>): Ops
    decreases |options|
  {
    if options == [] then ops else ApplyAll(options[0](ops), options[1..])
  }

  method ApplyValidationOptions(ops: Ops, options: seq<ValidationOption>) returns (r: Ops)
    ensures r == ApplyAll(ops, options)
  {
    r := ops;
    for i := 0 to |options|
      invariant ApplyAll(ops, options) == ApplyAll(r, options[i..])
    {
      r := options[i](r);
      assert options[i..][1..] == options[i + 1..];
    }
  }

  function PresetOps(cfg: Config, name: string): Ops
    requires name in cfg.presets
  {
    ApplyAll(BUILTIN, cfg.presets[name])
  }

  function DefaultOps(cfg: Config): Ops {
    if cfg.verifierOptions.Some? then cfg.verifierOptions.value else BUILTIN
  }

  // The steps

  function CheckValidatable(env: Env, token: string): Option<Error> {
    if token == "" then Some(TokenInvalid) else if env.stale then Some(JwksStale) else None
  }

  /** The algorithms the signature step lets pass. */
  function SignatureList(env: Env, ops: Ops): seq<string> {
    if env.hit then AllowedList(ops.methods, env.defaults) else VerifierList(ops.methods, env.defaults)
  }

  /** The signature step, through the cache: its result is that of a fresh check. */
  function VerifySignature(env: Env, token: string, ops: Ops): Outcome {
    FreshVerdict(env.w, env.keys, SignatureList(env, ops), token)
  }

  function ApplyPolicy(env: Env, cfg: Config, claims: Claims, ops: Ops): Option<Error>
    requires CelCompiles(env, ops)
  {
    match Apply(env.decoder, cfg.audienceMode, cfg.issuer, ops, claims, env.now)
    case None => None
    case Some(e) => Some(ClaimsRefused(e))
  }

  function RevocationItem(itemType: ItemType, claims: Claims, header: Header, token: string): string {
    match itemType
    case ByJti => if "jti" in claims && claims["jti"].Str? && claims["jti"].s != "" then claims["jti"].s else token
    case ByKid => if header.kid != "" then header.kid else token
    case ByToken => token
  }

  function CheckLocalRevocation(env: Env, cfg: Config, token: string, claims: Claims, header: Header): Option<Error> {
    if !cfg.storage then None
    else match env.revoked(RevocationItem(cfg.itemType, claims, header, token))
      case Unavailable => if cfg.failOpen then None else Some(RevocationCheck)
      case Yes => Some(TokenRevoked)
      case No => None
  }

  function CheckIntrospection(env: Env, cfg: Config, token: string): Option<Error> {
    match env.active(token)
    case Unavailable => if cfg.introspectionFailOpen then None else Some(IntrospectionUnavailable)
    case No => Some(TokenRevoked)
    case Yes => None
  }

  function CheckRevocation(env: Env, cfg: Config, token: string, claims: Claims, header: Header): Option<Error> {
    var local := CheckLocalRevocation(env, cfg, token, claims, header);
    if local.Some? then local
    else if cfg.introspection then CheckIntrospection(env, cfg, token)
    else None
  }

  function Finish(failure: Option<Error>, claims: Claims): Result<Claims, Error> {
    if failure.Some? then Err(failure.value) else Ok(claims)
  }

  // The paths

  /** parseAndValidateToken, then revocation. */
  function ValidateWithPolicy(env: Env, cfg: Config, token: string, ops: Ops): Result<Claims, Error>
    requires CelCompiles(env, ops)
  {
    match VerifySignature(env, token, ops)
    case Rejected => Err(TokenInvalid)
    case Accepted(claims, header) =>
      var policy := ApplyPolicy(env, cfg, claims, ops);
      if policy.Some? then Err(policy.value)
      else Finish(CheckRevocation(env, cfg, token, claims, header), claims)
  }

  function ValidateVerified(env: Env, cfg: Config, token: string, claims: Claims, header: Header, ops: Ops)
      : Option<Error>
    requires CelCompiles(env, ops)
  {
    if header.alg !in AllowedList(ops.methods, env.defaults) then Some(TokenInvalid)
    else
      var policy := ApplyPolicy(env, cfg, claims, ops);
      if policy.Some? then policy else CheckRevocation(env, cfg, token, claims, header)
  }

  function SelectPreset(cfg: Config, claims: Claims): Option<string>
    requires RulesUsable(cfg)
  {
    var name := PresetSelection.FirstMatch(cfg.rules, claims);
    if name != "" && name in cfg.presets then Some(name) else None
  }

  function ValidateSelected(env: Env, cfg: Config, token: string): Result<Claims, Error>
    requires Constructed(env, cfg)
  {
    match VerifySignature(env, token, BUILTIN)
    case Rejected => Err(TokenInvalid)
    case Accepted(claims, header) =>
      var preset := SelectPreset(cfg, claims);
      var ops := if preset.Some? then PresetOps(cfg, preset.value) else DefaultOps(cfg);
      Finish(ValidateVerified(env, cfg, token, claims, header, ops), claims)
  }

  function ValidateTokenWithOptions(env: Env, cfg: Config, token: string, options: seq<ValidationOption>)
      : Result<Claims, Error>
    requires Constructed(env, cfg)
  {
    var early := CheckValidatable(env, token);
    if early.Some? then Err(early.value)
    else if options == [] && cfg.verifierOptions.None? && cfg.rules == [] then
      ValidateWithPolicy(env, cfg, token, DefaultOps(cfg))
    else if options == [] && cfg.rules != [] then ValidateSelected(env, cfg, token)
    else if options == [] then ValidateWithPolicy(env, cfg, token, DefaultOps(cfg))
    else
      var ops := ApplyAll(DefaultOps(cfg), options);
      if !CelCompiles(env, ops) then Err(BadCelRule) else ValidateWithPolicy(env, cfg, token, ops)
  }

  function ValidateTokenWithPreset(env: Env, cfg: Config, token: string, name: string, options: seq<ValidationOption>)
      : Result<Claims, Error>
    requires Constructed(env, cfg)
  {
    if name !in cfg.presets then Err(TokenInvalid)
    else if options != [] then ValidateTokenWithOptions(env, cfg, token, cfg.presets[name] + options)
    else
      var early := CheckValidatable(env, token);
      if early.Some? then Err(early.value) else ValidateWithPolicy(env, cfg, token, PresetOps(cfg, name))
  }

  // The declarative check

  predicate Tolerated(answer: Answer, good: Answer, failOpen: bool) {
    answer == good || (answer == Unavailable && failOpen)
  }

  /** Both revocation sources let the token through; neither overrules the other. */
  predicate NotRevoked(env: Env, cfg: Config, token: string, claims: Claims, header: Header) {
    && (cfg.storage ==> Tolerated(env.revoked(RevocationItem(cfg.itemType, claims, header, token)), No, cfg.failOpen))
    && (cfg.introspection ==> Tolerated(env.active(token), Yes, cfg.introspectionFailOpen))
  }

  /** The token is signed by a key of the current set. */
  predicate Genuine(env: Env, token: string, parsed: Parsed) {
    && env.w.parse(token) == Some(parsed)
    && KeyId(parsed.header.alg, parsed.header.kid) in env.keys
    && env.w.verifies(token, parsed.header.alg, env.keys[KeyId(parsed.header.alg, parsed.header.kid)])
  }

  /** A path demands the algorithm once, in the signature step; automatic selection demands it
      of the built-in options there and of the effective ones afterwards. */
  predicate AlgorithmOk(env: Env, ops: Ops, alg: string, selected: bool) {
    if selected then alg in SignatureList(env, BUILTIN) && alg in AllowedList(ops.methods, env.defaults)
    else alg in SignatureList(env, ops)
  }

  /** Everything else a token must satisfy under these options. */
  predicate Passes(env: Env, cfg: Config, token: string, parsed: Parsed, ops: Ops)
    requires CelCompiles(env, ops)
  {
    && token != "" && !env.stale
    && Genuine(env, token, parsed)
    && Satisfied(env.decoder, cfg.audienceMode, cfg.issuer, ops, parsed.claims, env.now)
    && NotRevoked(env, cfg, token, parsed.claims, parsed.header)
  }

  /** The options a call without a named preset is governed by. */
  function EffectiveOps(cfg: Config, options: seq<ValidationOption>, claims: Claims): Ops
    requires RulesUsable(cfg)
  {
    if options != [] then ApplyAll(DefaultOps(cfg), options)
    else
      var preset := SelectPreset(cfg, claims);
      if cfg.rules != [] && preset.Some? then PresetOps(cfg, preset.value) else DefaultOps(cfg)
  }

  lemma RevocationMeaning(env: Env, cfg: Config, token: string, claims: Claims, header: Header)
    ensures CheckRevocation(env, cfg, token, claims, header).None? <==> NotRevoked(env, cfg, token, claims, header)
  {
  }

  /** The storage, asked about `item`, does not object. */
  predicate StorageLetsPass(env: Env, cfg: Config, item: string) {
    cfg.storage ==> env.revoked(item) == No || (env.revoked(item) == Unavailable && cfg.failOpen)
  }

  /** The answer of the revocation checks when the storage is asked about `item`: the storage speaks
      first, then the introspection endpoint about the token. */
  predicate Objects(env: Env, cfg: Config, token: string, item: string, e: Option<Error>) {
    && (e == Some(TokenRevoked) <==>
          (cfg.storage && env.revoked(item) == Yes)
          || (StorageLetsPass(env, cfg, item) && cfg.introspection && env.active(token) == No))
    && (e == Some(RevocationCheck) <==> cfg.storage && env.revoked(item) == Unavailable && !cfg.failOpen)
    && (e == Some(IntrospectionUnavailable) <==>
          StorageLetsPass(env, cfg, item) && cfg.introspection && env.active(token) == Unavailable
            && !cfg.introspectionFailOpen)
    && (e == None <==>
          StorageLetsPass(env, cfg, item)
            && (cfg.introspection ==>
                  env.active(token) == Yes || (env.active(token) == Unavailable && cfg.introspectionFailOpen)))
  }

  /** The storage is asked about the token's jti or kid, as configured, and about the whole token
      when that is what is configured or when the identifier is missing, empty or not a string. */
  lemma RevocationIdentifier(env: Env, cfg: Config, token: string, claims: Claims, header: Header)
    ensures forall id :: cfg.itemType.ByJti? && "jti" in claims && claims["jti"] == Conditions.Str(id) && id != "" ==>
      Objects(env, cfg, token, id, CheckRevocation(env, cfg, token, claims, header))
    ensures cfg.itemType.ByKid? && header.kid != "" ==>
      Objects(env, cfg, token, header.kid, CheckRevocation(env, cfg, token, claims, header))
    ensures
      || cfg.itemType.ByToken?
      || (cfg.itemType.ByKid? && header.kid == "")
      || (cfg.itemType.ByJti? && ("jti" !in claims || !claims["jti"].Str? || claims["jti"] == Conditions.Str(""))) ==>
      Objects(env, cfg, token, token, CheckRevocation(env, cfg, token, claims, header))
  {
  }

  lemma PolicyMeaning(env: Env, cfg: Config, token: string, ops: Ops, r: Result<Claims, Error>)
    requires CelCompiles(env, ops) && CheckValidatable(env, token).None?
      && r == ValidateWithPolicy(env, cfg, token, ops)
    ensures r.Ok? <==>
      && env.w.parse(token).Some?
      && var parsed := env.w.parse(token).value;
         Passes(env, cfg, token, parsed, ops) && AlgorithmOk(env, ops, parsed.header.alg, false)
    ensures r.Ok? ==> r.value == env.w.parse(token).value.claims
  {
    if VerifySignature(env, token, ops).Accepted? {
      var p := env.w.parse(token).value;
      ApplyDecides(env.decoder, cfg.audienceMode, cfg.issuer, ops, p.claims, env.now);
      RevocationMeaning(env, cfg, token, p.claims, p.header);
    }
  }

  lemma EffectiveOpsDecide(env: Env, cfg: Config, token: string, options: seq<ValidationOption>,
      r: Result<Claims, Error>)
    requires Constructed(env, cfg) && r == ValidateTokenWithOptions(env, cfg, token, options)
    ensures r.Ok? <==>
      && env.w.parse(token).Some?
      && var parsed := env.w.parse(token).value;
         var ops := EffectiveOps(cfg, options, parsed.claims);
         && CelCompiles(env, ops)
         && Passes(env, cfg, token, parsed, ops)
         && AlgorithmOk(env, ops, parsed.header.alg, options == [] && cfg.rules != [])
    ensures r.Ok? ==> r.value == env.w.parse(token).value.claims
  {
    if CheckValidatable(env, token).None? {
      if options == [] && cfg.rules != [] {
        SelectedOpsDecide(env, cfg, token, ValidateSelected(env, cfg, token));
      } else {
        var ops := ApplyAll(DefaultOps(cfg), options);
        if CelCompiles(env, ops) {
          PolicyMeaning(env, cfg, token, ops, ValidateWithPolicy(env, cfg, token, ops));
        }
      }
    }
  }

  lemma SelectedOpsDecide(env: Env, cfg: Config, token: string, r: Result<Claims, Error>)
    requires Constructed(env, cfg) && CheckValidatable(env, token).None? && r == ValidateSelected(env, cfg, token)
      && cfg.rules != []
    ensures r.Ok? <==>
      && env.w.parse(token).Some?
      && var parsed := env.w.parse(token).value;
         var ops := EffectiveOps(cfg, [], parsed.claims);
         Passes(env, cfg, token, parsed, ops) && AlgorithmOk(env, ops, parsed.header.alg, true)
    ensures r.Ok? ==> r.value == env.w.parse(token).value.claims
  {
    if env.w.parse(token).Some? {
      var p := env.w.parse(token).value;
      ApplyDecides(env.decoder, cfg.audienceMode, cfg.issuer, EffectiveOps(cfg, [], p.claims), p.claims, env.now);
      RevocationMeaning(env, cfg, token, p.claims, p.header);
    }
  }

  lemma PresetOpsDecide(env: Env, cfg: Config, token: string, name: string, r: Result<Claims, Error>)
    requires Constructed(env, cfg) && r == ValidateTokenWithPreset(env, cfg, token, name, [])
    ensures r.Ok? <==>
      && name in cfg.presets && env.w.parse(token).Some?
      && var parsed, ops := env.w.parse(token).value, PresetOps(cfg, name);
         Passes(env, cfg, token, parsed, ops) && AlgorithmOk(env, ops, parsed.header.alg, false)
    ensures r.Ok? ==> r.value == env.w.parse(token).value.claims
  {
    if name in cfg.presets && CheckValidatable(env, token).None? {
      PolicyMeaning(env, cfg, token, PresetOps(cfg, name), ValidateWithPolicy(env, cfg, token, PresetOps(cfg, name)));
    }
  }

  // The options in force, one step per option

  /** tr starts at `start`, and each option is applied to what the ones before it made. */
  ghost predicate Steps(tr: seq<Ops>, start: Ops, options: seq<ValidationOption>) {
    && |tr| == |options| + 1
    && tr[0] == start
    && forall i :: 0 <= i < |options| ==> tr[i + 1] == options[i](tr[i])
  }

  lemma {:induction false} StepsEnd(tr: seq<Ops>, start: Ops, options: seq<ValidationOption>)
    requires Steps(tr, start, options)
    ensures tr[|options|] == ApplyAll(start, options)
    decreases |options|
  {
    if options != [] {
      assert forall i :: 0 <= i < |options[1..]| ==> options[1..][i] == options[i + 1] && tr[1..][i + 1] == tr[i + 2];
      StepsEnd(tr[1..], options[0](start), options[1..]);
    }
  }

  lemma {:induction false} StepsExist(start: Ops, options: seq<ValidationOption>) returns (tr: seq<Ops>)
    ensures Steps(tr, start, options)
  {
    if options == [] {
      tr := [start];
    } else {
      var n := |options| - 1;
      var before := StepsExist(start, options[..n]);
      tr := before + [options[n](before[n])];
    }
  }

  /** The options the provider was built with, or the built-in ones. */
  predicate ProvidersOwn(cfg: Config, ops: Ops) {
    match cfg.verifierOptions
    case Some(own) => ops == own
    case None => ops == BUILTIN
  }

  /** The options of a call, step by step: those of the call on the provider's own; without any,
      those of the preset of the first matching rule on the built-in ones; else the provider's own. */
  ghost predicate Governs(cfg: Config, options: seq<ValidationOption>, claims: Claims, tr: seq<Ops>)
    requires RulesUsable(cfg)
  {
    if options != [] then tr != [] && ProvidersOwn(cfg, tr[0]) && Steps(tr, tr[0], options)
    else
      var name := PresetSelection.FirstMatch(cfg.rules, claims);
      if cfg.rules != [] && name != "" && name in cfg.presets then Steps(tr, BUILTIN, cfg.presets[name])
      else |tr| == 1 && ProvidersOwn(cfg, tr[0])
  }

  lemma GovernsEnd(cfg: Config, options: seq<ValidationOption>, claims: Claims, tr: seq<Ops>)
    requires RulesUsable(cfg) && Governs(cfg, options, claims, tr)
    ensures tr != [] && tr[|tr| - 1] == EffectiveOps(cfg, options, claims)
  {
    var name := PresetSelection.FirstMatch(cfg.rules, claims);
    if options != [] {
      StepsEnd(tr, tr[0], options);
    } else if cfg.rules != [] && name != "" && name in cfg.presets {
      StepsEnd(tr, BUILTIN, cfg.presets[name]);
    }
  }

  /** Every path that returns claims returns the token's own, and has checked them against
      everything the options in force demand; with automatic selection the algorithm must
      moreover pass the built-in options. And a token that satisfies all that is accepted. */
  lemma AcceptedExactlyWhenPasses(env: Env, cfg: Config, token: string, options: seq<ValidationOption>,
      tr: seq<Ops>, r: Result<Claims, Error>)
    requires Constructed(env, cfg) && r == ValidateTokenWithOptions(env, cfg, token, options)
    requires env.w.parse(token).Some? ==> Governs(cfg, options, env.w.parse(token).value.claims, tr)
    ensures r.Ok? <==>
      && env.w.parse(token).Some? && tr != []
      && var parsed, ops := env.w.parse(token).value, tr[|tr| - 1];
         && CelCompiles(env, ops)
         && Passes(env, cfg, token, parsed, ops)
         && AlgorithmOk(env, ops, parsed.header.alg, options == [] && cfg.rules != [])
    ensures r.Ok? ==> r.value == env.w.parse(token).value.claims
  {
    EffectiveOpsDecide(env, cfg, token, options, r);
    if env.w.parse(token).Some? {
      GovernsEnd(cfg, options, env.w.parse(token).value.claims, tr);
    }
  }

  /** A refusal names its reason: a stale key set, options that do not compile, the signature or its
      algorithm, the claims, or revocation, in this order. */
  lemma RefusalReason(env: Env, cfg: Config, token: string, options: seq<ValidationOption>, parsed: Parsed,
      tr: seq<Ops>, r: Result<Claims, Error>)
    requires Constructed(env, cfg) && r == ValidateTokenWithOptions(env, cfg, token, options)
    requires env.w.parse(token) == Some(parsed) && Governs(cfg, options, parsed.claims, tr)
    ensures tr != []
    ensures
      var ops, selected := tr[|tr| - 1], options == [] && cfg.rules != [];
      if token == "" then r == Err(TokenInvalid)
      else if env.stale then r == Err(JwksStale)
      else if !CelCompiles(env, ops) then r == Err(BadCelRule)
      else if !Genuine(env, token, parsed) || !AlgorithmOk(env, ops, parsed.header.alg, selected) then
        r == Err(TokenInvalid)
      else if !Satisfied(env.decoder, cfg.audienceMode, cfg.issuer, ops, parsed.claims, env.now) then
        r.Err? && r.error.ClaimsRefused?
      else if !NotRevoked(env, cfg, token, parsed.claims, parsed.header) then
        r.Err? && CheckRevocation(env, cfg, token, parsed.claims, parsed.header) == Some(r.error)
      else r == Ok(parsed.claims)
  {
    GovernsEnd(cfg, options, parsed.claims, tr);
    var ops := tr[|tr| - 1];
    hide Governs, Satisfied, NotRevoked, Genuine, AlgorithmOk, FreshVerdict;
    if CelCompiles(env, ops) && CheckValidatable(env, token).None? {
      PolicyReason(env, cfg, token, parsed, ops);
      if options == [] && cfg.rules != [] {
        SelectedReason(env, cfg, token, parsed, ops);
      }
    }
  }

  /** What a path that has got past the signature answers. */
  predicate Answers(env: Env, cfg: Config, token: string, parsed: Parsed, ops: Ops, r: Result<Claims, Error>)
    requires CelCompiles(env, ops)
  {
    if !Satisfied(env.decoder, cfg.audienceMode, cfg.issuer, ops, parsed.claims, env.now) then
      r.Err? && r.error.ClaimsRefused?
    else if !NotRevoked(env, cfg, token, parsed.claims, parsed.header) then
      r.Err? && CheckRevocation(env, cfg, token, parsed.claims, parsed.header) == Some(r.error)
    else r == Ok(parsed.claims)
  }

  lemma PolicyReason(env: Env, cfg: Config, token: string, parsed: Parsed, ops: Ops)
    requires CelCompiles(env, ops) && env.w.parse(token) == Some(parsed)
    ensures
      var r := ValidateWithPolicy(env, cfg, token, ops);
      if Genuine(env, token, parsed) && AlgorithmOk(env, ops, parsed.header.alg, false)
      then Answers(env, cfg, token, parsed, ops, r)
      else r == Err(TokenInvalid)
  {
    hide Satisfied, NotRevoked;
    ApplyDecides(env.decoder, cfg.audienceMode, cfg.issuer, ops, parsed.claims, env.now);
    RevocationMeaning(env, cfg, token, parsed.claims, parsed.header);
  }

  lemma SelectedReason(env: Env, cfg: Config, token: string, parsed: Parsed, ops: Ops)
    requires Constructed(env, cfg) && env.w.parse(token) == Some(parsed) && cfg.rules != []
    requires ops == EffectiveOps(cfg, [], parsed.claims)
    ensures CelCompiles(env, ops)
    ensures
      var r := ValidateSelected(env, cfg, token);
      if Genuine(env, token, parsed) && AlgorithmOk(env, ops, parsed.header.alg, true)
      then Answers(env, cfg, token, parsed, ops, r)
      else r == Err(TokenInvalid)
  {
    hide Satisfied, NotRevoked;
    ApplyDecides(env.decoder, cfg.audienceMode, cfg.issuer, ops, parsed.claims, env.now);
    RevocationMeaning(env, cfg, token, parsed.claims, parsed.header);
  }

  /** A preset selected by the rules is enforced in full: every one of its options, in order. */
  lemma SelectedMeaning(env: Env, cfg: Config, token: string, parsed: Parsed, tr: seq<Ops>, r: Result<Claims, Error>)
    requires Constructed(env, cfg) && cfg.rules != [] && env.w.parse(token) == Some(parsed)
    requires
      var name := PresetSelection.FirstMatch(cfg.rules, parsed.claims);
      name != "" && name in cfg.presets && Steps(tr, BUILTIN, cfg.presets[name])
    requires r == ValidateTokenWithOptions(env, cfg, token, [])
    ensures
      var ops := tr[|tr| - 1];
      r.Ok? <==>
        CelCompiles(env, ops) && Passes(env, cfg, token, parsed, ops) && AlgorithmOk(env, ops, parsed.header.alg, true)
    ensures r.Ok? ==> r.value == parsed.claims
  {
    AcceptedExactlyWhenPasses(env, cfg, token, [], tr, r);
  }

  /** So is a preset named by the caller; with extra options its own come first, and the provider's
      options take the place of the built-in ones. */
  lemma NamedPresetMeaning(env: Env, cfg: Config, token: string, name: string, options: seq<ValidationOption>,
      tr: seq<Ops>, r: Result<Claims, Error>)
    requires Constructed(env, cfg) && r == ValidateTokenWithPreset(env, cfg, token, name, options)
    requires name in cfg.presets ==> tr != [] && Steps(tr, tr[0], cfg.presets[name] + options)
    requires name in cfg.presets ==> if options == [] then tr[0] == BUILTIN else ProvidersOwn(cfg, tr[0])
    ensures r.Ok? <==>
      && name in cfg.presets && env.w.parse(token).Some?
      && var parsed, ops := env.w.parse(token).value, tr[|tr| - 1];
         && CelCompiles(env, ops)
         && Passes(env, cfg, token, parsed, ops) && AlgorithmOk(env, ops, parsed.header.alg, false)
    ensures r.Ok? ==> r.value == env.w.parse(token).value.claims
  {
    if name in cfg.presets {
      StepsEnd(tr, tr[0], cfg.presets[name] + options);
      if options == [] {
        assert cfg.presets[name] + options == cfg.presets[name];
        PresetOpsDecide(env, cfg, token, name, r);
      } else {
        EffectiveOpsDecide(env, cfg, token, cfg.presets[name] + options, r);
      }
    }
  }

  /** Automatic selection of a preset accepts exactly what naming that preset accepts, provided
      the algorithm also passes the built-in options and the preset's own list; and then with
      the same result, errors included. As long as there are default algorithms, that means:
      provided it is one of them. */
  lemma SelectionAgreesWithName(env: Env, cfg: Config, token: string, parsed: Parsed, name: string)
    requires Constructed(env, cfg) && cfg.rules != [] && env.w.parse(token) == Some(parsed)
    requires PresetSelection.FirstMatch(cfg.rules, parsed.claims) == name && name != "" && name in cfg.presets
    ensures
      var selected := ValidateTokenWithOptions(env, cfg, token, []);
      var named := ValidateTokenWithPreset(env, cfg, token, name, []);
      var passes := AlgorithmOk(env, PresetOps(cfg, name), parsed.header.alg, true);
      && (selected.Ok? <==> named.Ok? && passes)
      && (passes ==> selected == named)
      && (env.defaults != [] ==> (selected.Ok? <==> named.Ok? && parsed.header.alg in env.defaults))
  {
    EffectiveOpsDecide(env, cfg, token, [], ValidateTokenWithOptions(env, cfg, token, []));
    PresetOpsDecide(env, cfg, token, name, ValidateTokenWithPreset(env, cfg, token, name, []));
  }

  /** The narrowing is real: a preset that allows an algorithm outside the built-in set accepts
      a token by name that automatic selection of the same preset refuses. */
  lemma SelectionIsNarrower(env: Env, cfg: Config, token: string, parsed: Parsed, name: string)
    requires Constructed(env, cfg) && cfg.rules != [] && env.w.parse(token) == Some(parsed)
    requires PresetSelection.FirstMatch(cfg.rules, parsed.claims) == name && name != "" && name in cfg.presets
    requires Passes(env, cfg, token, parsed, PresetOps(cfg, name))
    requires AlgorithmOk(env, PresetOps(cfg, name), parsed.header.alg, false)
    requires parsed.header.alg !in SignatureList(env, BUILTIN)
    ensures ValidateTokenWithPreset(env, cfg, token, name, []) == Ok(parsed.claims)
    ensures ValidateTokenWithOptions(env, cfg, token, []) == Err(TokenInvalid)
  {
    PresetOpsDecide(env, cfg, token, name, ValidateTokenWithPreset(env, cfg, token, name, []));
  }

  /** Without default algorithms, and without a cached signature, the JWT package's own three stand
      in for them in the signature step and nowhere else: a preset that lists one of them
      accepts it by selection, and a preset that lists none accepts it by name only. */
  lemma SelectionWithoutDefaults(env: Env, cfg: Config, token: string, parsed: Parsed, name: string)
    requires Constructed(env, cfg) && cfg.rules != [] && env.w.parse(token) == Some(parsed)
    requires PresetSelection.FirstMatch(cfg.rules, parsed.claims) == name && name != "" && name in cfg.presets
    requires env.defaults == [] && !env.hit && parsed.header.alg in JWT_DEFAULTS
    requires Passes(env, cfg, token, parsed, PresetOps(cfg, name))
    ensures
      var methods := PresetOps(cfg, name).methods;
      && (ValidateTokenWithOptions(env, cfg, token, []).Ok? <==> parsed.header.alg in methods)
      && (ValidateTokenWithPreset(env, cfg, token, name, []).Ok? <==> methods == [] || parsed.header.alg in methods)
  {
    EffectiveOpsDecide(env, cfg, token, [], ValidateTokenWithOptions(env, cfg, token, []));
    PresetOpsDecide(env, cfg, token, name, ValidateTokenWithPreset(env, cfg, token, name, []));
  }

  /** A token the local storage reports as revoked is accepted by no path, whatever
      introspection says; nor is one that introspection calls inactive. */
  lemma RevokedNeverAccepted(env: Env, cfg: Config, token: string, parsed: Parsed, name: string,
      options: seq<ValidationOption>)
    requires Constructed(env, cfg) && env.w.parse(token) == Some(parsed)
    requires (cfg.storage && env.revoked(RevocationItem(cfg.itemType, parsed.claims, parsed.header, token)) == Yes)
             || (cfg.introspection && env.active(token) == No)
    ensures !ValidateTokenWithOptions(env, cfg, token, options).Ok?
    ensures !ValidateTokenWithPreset(env, cfg, token, name, options).Ok?
  {
    EffectiveOpsDecide(env, cfg, token, options, ValidateTokenWithOptions(env, cfg, token, options));
    if options == [] {
      PresetOpsDecide(env, cfg, token, name, ValidateTokenWithPreset(env, cfg, token, name, []));
    } else if name in cfg.presets {
      var merged := cfg.presets[name] + options;
      EffectiveOpsDecide(env, cfg, token, merged, ValidateTokenWithOptions(env, cfg, token, merged));
    }
  }

  // Presets with extra options

  lemma {:induction false} ApplyAllAppend(ops: Ops, a: seq<ValidationOption>, b: seq<ValidationOption>)
    ensures ApplyAll(ops, a + b) == ApplyAll(ApplyAll(ops, a), b)
    decreases |a|
  {
    if a == [] {
      assert a + b == b;
    } else {
      assert (a + b)[1..] == a[1..] + b;
      ApplyAllAppend(a[0](ops), a[1..], b);
    }
  }

  /** Naming a preset with extra options starts from the provider's own defaults, naming it
      alone starts from the built-in ones. So extra options extend the preset, for every
      choice of them, exactly when the preset's options give the same on both. */
  lemma ExtraOptionsExtendPreset(cfg: Config, name: string)
    requires RulesUsable(cfg) && name in cfg.presets
    ensures (forall extra :: extra != [] ==>
               EffectiveOps(cfg, cfg.presets[name] + extra, map[]) == ApplyAll(PresetOps(cfg, name), extra))
            <==> ApplyAll(DefaultOps(cfg), cfg.presets[name]) == PresetOps(cfg, name)
  {
    var base := ApplyAll(DefaultOps(cfg), cfg.presets[name]);
    forall extra: seq<ValidationOption> | extra != []
      ensures EffectiveOps(cfg, cfg.presets[name] + extra, map[]) == ApplyAll(base, extra)
    {
      ApplyAllAppend(DefaultOps(cfg), cfg.presets[name], extra);
    }
    var same: ValidationOption := (o: Ops) => o;
    ApplyOne(base, same);
    ApplyOne(PresetOps(cfg, name), same);
    assert [same] != [];
  }

  lemma ApplyOne(ops: Ops, option: ValidationOption)
    ensures ApplyAll(ops, [option]) == option(ops)
  {
    assert [option][1..] == [];
  }

  /** A provider restricted to ES256 by default: its empty preset allows RS256 when named alone
      and not when named with an option that changes nothing. */
  lemma ExtraOptionDropsAlgorithm(env: Env, cfg: Config, token: string, parsed: Parsed)
    requires Constructed(env, cfg) && cfg.verifierOptions == Some(BUILTIN.(methods := ["ES256"]))
      && cfg.presets == map["p" := []]
    requires env.w.parse(token) == Some(parsed) && parsed.header.alg == "RS256"
    requires Passes(env, cfg, token, parsed, BUILTIN) && AlgorithmOk(env, BUILTIN, "RS256", false)
    ensures ValidateTokenWithPreset(env, cfg, token, "p", []) == Ok(parsed.claims)
    ensures !ValidateTokenWithPreset(env, cfg, token, "p", [(o: Ops) => o]).Ok?
  {
    PresetOpsDecide(env, cfg, token, "p", ValidateTokenWithPreset(env, cfg, token, "p", []));
    var same: ValidationOption := (o: Ops) => o;
    var merged := cfg.presets["p"] + [same];
    assert merged == [same];
    ApplyOne(DefaultOps(cfg), same);
    EffectiveOpsDecide(env, cfg, token, merged, ValidateTokenWithOptions(env, cfg, token, merged));
  }
}
