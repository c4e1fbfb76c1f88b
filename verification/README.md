# Verified models of go-atlas

Dafny models of the concurrency protocols and decision procedures of go-atlas, with
proofs of what they promise. The project covers self-issued JWT verification, the OIDC
provider, the OPA policy manager, the plugin manager, the denylist and the JWT verifier.
`dafny verify dfyconfig.toml` checks everything.

A protocol is modelled twice. The class in its module carries the source's fields, and
its methods are the source's lock sections or undisturbed calls. A lock section is one step,
except that its read of a flag that is set without the lock is a step of its own. The state machine
below it (`Event`, `Enabled`, `Effect`, `Next`, `IsRun`) interleaves any number of
goroutines at the points where the source can be preempted. Its theorems quantify over
all runs: `Inv` is kept by every step, and the trace theorems follow. Some state
components are history only (the bundle a decision came from, the step at which a key
was asked for); no branch of the model looks at them. The theorems that read state off the
events of a run (`StateTellsHistory`, `LoopIsHistory`, `CacheIsHistory`, `OfferedIsAddressed`
and their like) tie state and history to what happened.

| module | what it models |
|---|---|
| `FlightKey`, `KeyCache`, `InvalidationFence` | key lookup of the self-issued verifier: the length-prefixed singleflight key, the generation-fenced cache, and the interleaving of verifications, flights and invalidations |
| `Denylist`, `JwtVerifier` | revocation entries with expiry and sweeping; claim validation and its interplay with the denylist |
| `ScopeMatcher`, `Conditions`, `PresetSelection` | 64-bit scope masks, the condition compiler, rule filtering and sorting, the meaning of a service configuration |
| `SignatureCache`, `TokenPaths`, `ClaimPolicy`, `ClaimCopy`, `TokenLifetime` | the signature cache, the validation paths of the OIDC provider, its claim policy, the deep copy that matchers see, the lifetime limit |
| `DecisionCache`, `PollLoops`, `EventDelivery` | lock-free policy reload against cached evaluations, chained poll loops, event channels with overflow policies |
| `SnapshotDir`, `HandleCache`, `PluginLifecycle`, `Quarantine`, `PluginWatcher` | the plugin manager: snapshot directory, handle cache, registry and states, quarantine, watcher ownership |

## Assumptions

- SHA-256 values are represented by what is hashed, so hashes do not collide; a signature
  check is a fixed function of token, algorithm and key.
- The denylist clock does not run backwards where a lemma says so (`SweptBy`); every other
  clock reading is arbitrary.
- OPA reloads are serialised, as the update-cycle task runs them (auth/opa/manager.go:221-223),
  so broadcasts have one sender at a time. Revisions may repeat unless a lemma excludes it.
- The generation counter of the key cache does not wrap around.
- `slices.SortFunc` permutes its input, and orders it when the comparison is a strict weak ordering on it; up to
  twelve elements it is an insertion sort.
- golang-jwt applies sections 4.1.4 to 4.1.6 of RFC 7519 with the configured leeway.
- CEL programs, Rego queries, plugin opens and Init functions are arbitrary, answered by parameters or events.

## Where the code differs from what it says

- A decision is cached under the revision read before the query was loaded. A reload
  publishes the query before the revision, so an entry comes from the successor bundle
  exactly when its query was loaded between the two stores, although the comment at
  auth/opa/manager.go:400-402 says otherwise (`DecisionCache.EntryNeverOlder`,
  `DecisionCache.SuccessorIsCached`). A decision older than the bundle an evaluation began
  under is possible exactly for histories in which a revision occurs twice
  (`DecisionCache.StaleExactlyOnRepeat`).
- Close sets the closed flag without the locks under which the flag is read. A snapshot
  directory, a poll or watch loop, or a registration can therefore still appear after the
  flag is set, namely that of the one section that had read the flag before; none appears
  after Close's own section under that lock (`SnapshotDir.DirsAfterClose`,
  `PollLoops.LoopsAfterClose`, `PluginWatcher.LoopsAfterClose`,
  `PluginLifecycle.RegistryAfterFlag`, `PluginLifecycle.LateEntryExactly`, and the runs beside
  them).
- Close of the plugin manager may return while a watch loop still runs, although
  plugins/manager.go:428-430 says it blocks until the goroutine has exited. The first Close
  waits for every loop exactly when all but the current one have exited by its StopWatching
  section; otherwise another StopWatching has taken a loop over and may still be joining it
  (`PluginWatcher.CloseWaitsExactly`, `PluginWatcher.CloseReturned`,
  `PluginWatcher.CloseReturnsEarly`). A repeated Close waits for none
  (`PluginWatcher.RepeatedCloseReturns`).
- One verification reads the clock for the temporal claims and again inside the
  denylist. A token revoked until exp + leeway gets through exactly when that instant
  falls between the two reads (`JwtVerifier.ReadmissionWindow`).
- Preset rules are sorted by the difference of their priorities, which overflows for
  priorities more than a 64-bit int apart; at a difference of exactly 2^63 the comparison puts
  either rule before the other. What the sort promises makes the best of several matching
  rules decide exactly when no two usable rules, matching or not, are that far apart
  (`PresetSelection.SelectsBestExactly`). Otherwise the lower of two matching rules wins, or a
  rule that does not match keeps the best one from moving up
  (`PresetSelection.OverflowPicksLower`, `PresetSelection.IdleRuleDecides`).
- The default algorithm list of the OIDC provider is a variable. When it is empty and the
  policy lists none either, the JWT verifier falls back to its own three algorithms
  (auth/jwt/options.go:99-106, auth/jwt/algorithm.go:48-50) while the check on a cache hit and
  on the selected preset allows none (auth/oidc/provider.go:436-442). A token with one of the
  three is then accepted on a miss and refused on a hit, and that is the only case where the
  cache shows (`SignatureCache.HitAgreesExactly`, `SignatureCache.CacheIsTransparent`,
  `SignatureCache.EmptyListSplits`, `TokenPaths.SelectionWithoutDefaults`).
- `HasAllScopes` of an empty list refuses every token, while its fallback for long lists
  would accept them all (`ScopeMatcher.HasAllScopes`, `ScopeMatcher.MatchFallback`).
- The required scopes of the claim policy are satisfied by any one of them (`ClaimPolicy.ValidateRequiredScopes`).
- A quarantine entry is also replaced when the host quarantines a plugin loaded from other
  bytes of the same file (`Quarantine.LiftsExactly`, `Quarantine.HostQuarantineLifts`).
- Naming a preset together with extra options starts from the provider's default options,
  naming it alone starts from the built-in ones (`TokenPaths.ExtraOptionsExtendPreset`).
- The lifetime limit is computed in wrapping 64-bit nanoseconds (`TokenLifetime.LimitEnforced`).
- Signature-cache keys are unambiguous for every string without a NUL character, and for
  no other (`SignatureCache.ClashNeedsNul`). The other provider of a clash has a NUL in its
  issuer, a free string; JWKS URLs cannot contain one.

## Model

| member | source | states |
|---|---|---|
| FlightKey.BuildFlightKey | auth/selfjwt/verifier.go:182-192 | the appended buffer is the encoding of subject, kid and generation, and the decoder recovers all three |
| FlightKey.RoundTrip | auth/selfjwt/verifier.go:179-192 | decoding inverts encoding for arbitrary byte strings and generations |
| FlightKey.Injective | auth/selfjwt/verifier.go:179-192 | equal flight keys mean equal subject, kid and generation |
| FlightKey.ValueOfDecimal | auth/selfjwt/verifier.go:184-190 | reading a printed decimal number gives the number back |
| FlightKey.TakeFieldInverts | auth/selfjwt/verifier.go:184-189 | a length-prefixed field is read back exactly, whatever bytes it holds and whatever follows |
| KeyCache.Store.constructor | auth/selfjwt/cache.go:49-51 | a new cache is empty, at generation zero |
| KeyCache.Store.Get | auth/selfjwt/cache.go:54-62 | hits exactly the entries whose expiry lies after the clock, and returns their key |
| KeyCache.Store.Generation | auth/selfjwt/cache.go:66-70 | the current generation |
| KeyCache.Store.PutIfGeneration | auth/selfjwt/cache.go:78-94 | stores only under the current generation, making room first when the cap is reached |
| KeyCache.Store.EvictLocked | auth/selfjwt/cache.go:99-111 | frees a slot, dropping live entries only when no expired one would do |
| KeyCache.Store.DeleteKey | auth/selfjwt/cache.go:115-120 | removes the key and advances the generation |
| KeyCache.Store.DeleteSubject | auth/selfjwt/cache.go:124-133 | removes every key of the subject, no other, and advances the generation |
| KeyCache.PutsEffect | auth/selfjwt/cache.go:78-111 | a put keeps the size cap and the generation, never alters another entry, and does nothing under an old generation |
| KeyCache.DropsEffect | auth/selfjwt/cache.go:115-133 | invalidation keeps the cap, leaves nothing it covers and changes nothing else |
| InvalidationFence.NextKeepsInv | auth/selfjwt/verifier.go:131-211 | every step of verifications, flights, invalidations, cancellations and clock ticks keeps the protocol invariant |
| InvalidationFence.RunKeepsInv | auth/selfjwt/verifier.go:131-211 | the invariant holds in every state of every run |
| InvalidationFence.Fence | auth/selfjwt/verifier.go:128-211 | a verification that starts after an invalidation of its subject and kid only returns a key the provider was asked for after that invalidation and answered for that very subject and kid, from cache, shared flight or own lookup |
| InvalidationFence.CacheStaysFresh | auth/selfjwt/cache.go:64-133 | in every state, what the cache holds is the provider's answer to a question asked after every invalidation covering it, and the cap holds |
| InvalidationFence.KeysComeFromProvider | auth/selfjwt/verifier.go:131-177 | every key returned or cached is the material of an Answer event of the run, for the same subject and kid, asked at the step its lookup missed |
| InvalidationFence.FlightFailsByProvider | auth/selfjwt/verifier.go:150-177 | a lookup fails exactly when the provider refuses it |
| InvalidationFence.FailureHasACause | auth/selfjwt/verifier.go:131-177 | a verification fails only when its caller gave up or the provider refused a lookup of its key |
| InvalidationFence.CancelReturns | auth/selfjwt/verifier.go:131-177 | giving up returns a failure, and what was returned stands |
| InvalidationFence.JoinShares | auth/selfjwt/verifier.go:143-176 | a verification that missed waits for the lookup in progress under its key and generation, and a new one is started exactly when there is none |
| InvalidationFence.HitExactlyWhenLive | auth/selfjwt/cache.go:54-62 | a verification is answered from the cache exactly when the cache held an entry at its lookup and the clock, read afterwards, is before the expiry, which lies one TTL after the clock reading of the lookup that filed it |
| InvalidationFence.RecheckHitsExactlyWhenLive | auth/selfjwt/verifier.go:150-160 | the re-check inside a flight decides the same way, and asks the provider otherwise |
| InvalidationFence.FetchedThenCached | auth/selfjwt/verifier.go:131-177 | for every key and answer, a run in which the first verification returns the answer and the second is served with it without a lookup |
| InvalidationFence.StaleIsMissed | auth/selfjwt/cache.go:54-133 | for every key, a run in which the TTL, an invalidation of the key or one of the subject makes the next verification miss |
| InvalidationFence.CoversWhatItDrops | auth/selfjwt/cache.go:115-133 | an invalidation covers exactly the entries it drops |
| InvalidationFence.VerificationNeverStuck | auth/selfjwt/verifier.go:131-177 | no deadlock: an unfinished verification has a step to take, or may give up while the lookup it waits for has one |
| InvalidationFence.OneLookupPerKey | auth/selfjwt/verifier.go:131-177 | two unfinished provider lookups never serve the same subject, kid and generation |
| Denylist.Denylist.Revoke | auth/denylist/denylist.go:60-65 | appends a permanent revocation to the history the entries stand for |
| Denylist.Denylist.RevokeUntil | auth/denylist/denylist.go:72-80 | appends a bounded revocation, which is ignored when already past |
| Denylist.Denylist.Restore | auth/denylist/denylist.go:83-87 | appends a restoration |
| Denylist.Denylist.IsRevoked | auth/denylist/denylist.go:91-99 | answers with the verdict of the history, as long as the clock is not behind a sweep |
| Denylist.Denylist.Sweep | auth/denylist/denylist.go:112-116 | appends a sweep and reports how many entries went |
| Denylist.Denylist.SweepLocked | auth/denylist/denylist.go:120-130 | the loop keeps exactly the unexpired and the permanent entries |
| Denylist.AnswersFromHistory | auth/denylist/denylist.go:60-130 | for every operation sequence the map answers as the last effective operation on the key demands |
| Denylist.SweepObservable | auth/denylist/denylist.go:112-130 | a sweep changes an answer exactly for a bounded entry that the sweeper's clock had passed and the reader's has not |
| Denylist.SweepKeepsLive | auth/denylist/denylist.go:120-130 | a sweep keeps exactly the entries that still deny, unchanged |
| Denylist.BoundedRevocationHolds | auth/denylist/denylist.go:67-99 | an effective bounded revocation denies at every instant before its expiry unless restored or replaced |
| Denylist.BoundedRevocationEnds | auth/denylist/denylist.go:67-99 | and stops exactly at the expiry, unless the expiry is the zero time |
| Denylist.ZeroTimeRevocation | auth/denylist/denylist.go:72-80 | a revocation until the zero time has no effect for a clock at or after it, and is permanent for a clock before it |
| JwtVerifier.AudienceMatches | auth/jwt/verifier.go:223-230 | true exactly when token and accepted audiences intersect |
| JwtVerifier.ValidateExtraClaims | auth/jwt/verifier.go:141-156 | reports the first missing required claim, then the audience, then revocation |
| JwtVerifier.FirstMissingIsFirst | auth/jwt/verifier.go:142-146 | the reported claim is the earliest absent one, and none is reported exactly when all are there |
| JwtVerifier.SplitPipelineAgrees | auth/jwt/verifier.go:76-126 | full verification accepts exactly what the signature step followed by claim validation accepts, plus the typ check |
| JwtVerifier.AcceptedClaims | auth/jwt/verifier.go:118-156 | acceptance spelled out for every registered claim, required claim, audience and revocation, in both directions |
| JwtVerifier.ExpiryReported | auth/jwt/verifier.go:118-126 | an expired token is reported as expired whatever else is wrong with it |
| JwtVerifier.RefusalReason | auth/jwt/verifier.go:76-156 | the reported error is decided by the first fault in the order expiry, other registered claims, typ, missing claim, audience, revocation |
| JwtVerifier.TypePrefixIgnored | auth/jwt/verifier.go:210-219 | two typ values match exactly when their lower-case forms are equal up to an "application/" prefix on one of them |
| JwtVerifier.ReadmissionWindow | auth/jwt/verifier.go:141-156 | given the answer IsRevoked gives after any operations and sweeps, a token revoked until exp + leeway passes exactly when that instant lies between the verification's two clock reads |
| JwtVerifier.NoReadmission | auth/jwt/verifier.go:76-156 | with the reads no further apart than the revocation's margin it is rejected forever: IsRevoked denies it before exp + leeway, and it is expired from then on |
| JwtVerifier.WindowExample | auth/jwt/verifier.go:141-156 | the window occurs for concrete times |
| ScopeMatcher.CompileBitmask | auth/oidc/matchers.go:139-152 | every distinct required scope gets its own bit at its first position, and the full mask is their union |
| ScopeMatcher.MatchBitmask | auth/oidc/matchers.go:153-166 | the mask loop decides inclusion of the required scopes, duplicates included |
| ScopeMatcher.MatchFallback | auth/oidc/matchers.go:170-188 | the set loop decides the same inclusion for lists of any length |
| ScopeMatcher.HasAllScopes | auth/oidc/matchers.go:139-167 | true exactly for a non-empty required list contained in the token's scopes, up to and beyond 64 entries |
| ScopeMatcher.HasAnyScope | auth/oidc/matchers.go:102-128 | true exactly when some required scope occurs |
| ScopeMatcher.BitShifts | auth/oidc/matchers.go:148-148 | the bit of each position is that of the one before shifted left by one |
| ScopeMatcher.MaskDecides | auth/oidc/matchers.go:145-165 | a 64-bit mask contains a position's bit exactly when the set contains the position |
| ScopeMatcher.MasksCompareSets | auth/oidc/matchers.go:145-165 | comparing masks is comparing sets of positions |
| Conditions.ParseTexts | auth/oidc/service_config.go:641-656 | accepts exactly the non-empty arrays of non-blank strings, and returns them in order |
| Conditions.CompileClaimEquals | auth/oidc/service_config.go:480-639 | accepts exactly the well-formed entries; the matcher means the conjunction over all of them in any visiting order |
| Conditions.CompileClaimContains | auth/oidc/service_config.go:480-639 | likewise for substring conditions |
| Conditions.CompileList | auth/oidc/service_config.go:480-639 | nested and/or lists compile exactly when every operand does, to the conjunction or disjunction of their meanings |
| Conditions.ConditionsToMatcher | auth/oidc/service_config.go:480-639 | accepts exactly the well-formed condition trees, and the closure agrees with the tree's recursive meaning on every claim set; the meaning speaks of words of the scope claim and occurrences of substrings, not of the functions the closures call |
| Conditions.ScopesMeaning | auth/internal/claimscope/claimscope.go:12-40 | a token carries a scope exactly when it is a maximal run of non-space characters of the string claim, or a string of the array claim |
| Conditions.SubstringMeaning | auth/oidc/matchers.go:41-62 | the substring test is true exactly when the text occurs at some position |
| Conditions.ScanMeaning | auth/oidc/matchers.go:195-220 | the early-exit scans of MatcherAnd and MatcherOr are conjunction and disjunction |
| PresetSelection.CompareIsOrder | auth/oidc/presets.go:127-140 | the comparison function is the intended order exactly while the priority difference fits 64 bits |
| PresetSelection.KeepUsable | auth/oidc/presets.go:105-124 | exactly the rules with a matcher and a preset name are kept, in order, with their positions |
| PresetSelection.SelectPreset | auth/oidc/presets.go:210-225 | the scan returns the preset of the first matching rule |
| PresetSelection.SelectsBest | auth/oidc/presets.go:95-146 | while no two usable rules are so far apart that the difference overflows, the matching rule of highest priority, earliest first, decides, whatever the sort does internally |
| PresetSelection.SelectsBestExactly | auth/oidc/presets.go:95-146 | with several matching rules the best one decides under every outcome the sort may have exactly when no two usable rules overflow, matching or not |
| PresetSelection.SelectsNone | auth/oidc/presets.go:95-146 | nothing is selected when no rule matches, whatever the priorities |
| PresetSelection.InsertionSorts | auth/oidc/presets.go:127-140 | insertion sort with the comparison function keeps what the sort promises: a permutation, in the intended order when no two elements overflow |
| PresetSelection.OverflowPicksLower | auth/oidc/presets.go:127-140 | of every two matching rules that overflow, insertion sort lets the lower one win in either input order; at a difference of exactly 2^63 it reverses the input |
| PresetSelection.IdleRuleDecides | auth/oidc/presets.go:127-140 | a rule that does not match, placed between two matching ones and overflowing with the better, makes the worse one win |
| PresetSelection.ValidateSection | auth/oidc/service_config.go:659-718 | accepts exactly the sections whose durations parse, whose switches are not set to false and whose CEL rules are named and compile |
| PresetSelection.ValidateServiceConfig | auth/oidc/service_config.go:212-276 | accepts exactly the supported version with valid validation sections, presets named once, and rules that compile and refer to a known preset |
| PresetSelection.ToPresetRules | auth/oidc/service_config.go:311-332 | the rules carry the file's presets, matchers meaning their conditions, and priorities falling in file order |
| PresetSelection.ConfigMeaning | auth/oidc/service_config.go:311-332 | for every accepted configuration, every compilation and every sort outcome, selection returns the preset of the first rule in the file that holds, and that preset is registered |
| SignatureCache.FingerprintIdentifies | auth/oidc/cache.go:198-210 | a non-empty fingerprint identifies the key |
| SignatureCache.PrebuiltVerifierIsCurrent | auth/oidc/policy.go:54-64 | however the default list changed since the policy was built, the reused verifier enforces the list a verifier built now would, empty lists included |
| SignatureCache.ListsAgreeExactly | auth/oidc/provider.go:434-442 | the check of a hit and the verifier allow an algorithm alike exactly unless both lists are empty and the algorithm is one of the three the JWT package allows by itself |
| SignatureCache.PlainKeysAreInjective | auth/oidc/cache.go:92-103 | with NUL-free issuers and URLs, equal cache keys mean the same provider site and token |
| SignatureCache.ClashNeedsNul | auth/oidc/cache.go:92-103 | among providers with fetchable JWKS URLs, a string can collide with another provider's well-formed token exactly when it contains a NUL |
| SignatureCache.NulTokenIsMistaken | auth/oidc/cache.go:120-131 | such a collision makes a hit where a fresh verification refuses |
| SignatureCache.HitAgrees | auth/oidc/cache.go:120-131 | for every algorithm list, the entry behind an honoured hit determines what a fresh verification with the same keys and that list says |
| SignatureCache.HitAgreesExactly | auth/oidc/cache.go:120-131 | an honoured hit answers as a fresh verification exactly unless policy and defaults list no algorithm and the token uses one of the JWT package's three |
| SignatureCache.Provider.CachedKeyFingerprint | auth/oidc/cache.go:182-196 | the memoised fingerprint is always the key's own |
| SignatureCache.Provider.CurrentKeyFingerprint | auth/oidc/cache.go:160-168 | the fingerprint of the key the current JWKS resolves, or empty |
| SignatureCache.Provider.VerifyTokenSignature | auth/oidc/cache.go:110-155 | with or without a cache, whatever valid entries it holds, the result is the fresh verdict under the list of a hit or of a check, which are the same list unless both sources are empty; the cache stays truthful, and a hit leaves it alone |
| SignatureCache.Provider.VerifyAndStore | auth/oidc/cache.go:132-155 | the miss path returns the fresh verdict, and stores the entry exactly when it accepted a token with time left whose key has a fingerprint |
| SignatureCache.NextKeepsInv | auth/oidc/cache.go:110-155 | every step of concurrent calls, rotations, default changes and evictions keeps entries and pending results truthful |
| SignatureCache.RunKeepsInv | auth/oidc/cache.go:110-155 | so does every run |
| SignatureCache.CacheIsTransparent | auth/oidc/cache.go:105-168 | a finished call returned the fresh verdict for a key set its provider had and a list its policy meant during the call; it is the verdict of a verification without cache exactly unless it was a hit with empty lists for a token such a verification accepts |
| SignatureCache.CacheIsInvisible | auth/oidc/cache.go:105-168 | with no rotation during the call that is, under the same exact condition, the verdict for the current keys and list |
| SignatureCache.EmptyListSplits | auth/oidc/cache.go:110-155 | for every token the JWT package's own list lets pass, a run with empty lists that accepts it on the miss and refuses it on the following hit |
| SignatureCache.RotationRefuses | auth/oidc/cache.go:105-168 | for every cached token, a run in which the JWKS drops its key and the next call refuses it |
| SignatureCache.WorldIsHistory | auth/oidc/cache.go:105-168 | the key sets and defaults that calls read are those of the last rotation and the last change of the run |
| SignatureCache.CallIsBegun | auth/oidc/cache.go:110-131 | a call keeps the token, policy and provider it was begun with, and counts as a hit exactly when the algorithm check of a hit ended it |
| SignatureCache.EntriesAreHistory | auth/oidc/cache.go:132-155 | the cache holds a key exactly when the save of an accepted token filed it and no eviction came since |
| SignatureCache.NobodyWaits | auth/oidc/cache.go:110-155 | no unfinished call waits for another or for a rotation |
| SignatureCache.RemovedKeyIsDead | auth/oidc/cache.go:105-168 | every accepted token verifies under a key the JWKS held after the call began, cached or not |
| TokenPaths.ApplyValidationOptions | auth/oidc/provider.go:1451-1455 | options take effect left to right |
| TokenPaths.RevocationMeaning | auth/oidc/provider.go:635-703 | the revocation checks pass exactly when both sources let the token through or fail open; neither overrules the other |
| TokenPaths.RevocationIdentifier | auth/oidc/provider.go:652-778 | the storage is asked about the jti, the kid or the whole token as configured, the whole token when the identifier is missing; and each error of the revocation checks is reported in exactly its case |
| TokenPaths.PolicyMeaning | auth/oidc/provider.go:1410-1422 | the plain path accepts exactly what its options demand of signature, algorithm, claims and revocation, the algorithm by the list in force for a hit or a miss |
| TokenPaths.SelectedMeaning | auth/oidc/provider.go:552-600 | a preset selected by the rules is enforced in full: acceptance is what the options demand that result from applying the preset's options to the built-in ones one after the other, with an algorithm that also passes the built-in list |
| TokenPaths.AcceptedExactlyWhenPasses | auth/oidc/provider.go:489-600 | every path returns the token's own claims, exactly when signature, algorithm lists, claim policy, local revocation and introspection pass under the options in force, which are spelled out step by step from the call's options, the selected preset or the provider's own |
| TokenPaths.RefusalReason | auth/oidc/provider.go:489-600 | the reported error is decided by the first fault in the order empty token, stale keys, options that do not compile, signature or algorithm, claims, revocation |
| TokenPaths.NamedPresetMeaning | auth/oidc/presets.go:148-207 | a preset named by the caller is enforced in full, every option in order; with extra options its own come first, on top of the provider's |
| TokenPaths.SelectionAgreesWithName | auth/oidc/provider.go:510-523 | selecting a preset automatically accepts exactly what naming it accepts with an algorithm that passes the built-in options too, and then with the same result, errors included; while default algorithms exist, that means one of them |
| TokenPaths.SelectionIsNarrower | auth/oidc/provider.go:552-577 | an algorithm outside the list of the built-in options is accepted by name and refused by selection |
| TokenPaths.SelectionWithoutDefaults | auth/oidc/provider.go:552-600 | with the default list empty and no cached signature, one of the JWT package's three is accepted by selection exactly when the preset lists it, and by name also when the preset lists nothing |
| TokenPaths.RevokedNeverAccepted | auth/oidc/provider.go:654-703 | no path accepts a token either revocation source reports |
| TokenPaths.ExtraOptionsExtendPreset | auth/oidc/presets.go:156-181 | extra options extend the preset, for every choice of them, exactly when its options give the same on the provider's and on the built-in defaults |
| TokenPaths.ExtraOptionDropsAlgorithm | auth/oidc/presets.go:156-181 | otherwise an option that changes nothing can change the verdict |
| ClaimPolicy.ValidateRequiredClaims | auth/oidc/provider.go:1144-1173 | the loop accepts exactly when every required claim is present or excused, and sub is a non-empty string |
| ClaimPolicy.ValidateExpectedClaims | auth/oidc/provider.go:1175-1193 | in any iteration order, accepts exactly when every expected claim that is not ignored prints as expected |
| ClaimPolicy.ValidateAllowedClientIds | auth/oidc/provider.go:1195-1218 | accepts exactly the allowed client_id, or azp in its absence |
| ClaimPolicy.ValidateRequiredScopes | auth/oidc/provider.go:1220-1251 | accepts exactly when the scope claim is a string or array that carries some listed scope |
| ClaimPolicy.ValidateCelRules | auth/oidc/provider.go:1299-1315 | accepts exactly when every compiled rule holds |
| ClaimPolicy.ValidateClaims | auth/oidc/provider.go:1073-1110 | the checks in sequence decide the declarative policy, reporting the audience before the claims and those before CEL |
| ClaimPolicy.ApplyDecides | auth/oidc/policy.go:66-78 | the policy passes exactly when the registered claims are in order, with the configured or else the discovered issuer, the configured subject and audience, and the provider's own checks are all satisfied |
| ClaimCopy.CloneClaims | auth/oidc/provider.go:602-610 | the copy of a claim set stands for the same JSON document, and every map and slice reachable from it is new, so no write to it reaches the original |
| ClaimCopy.CloneFields | auth/oidc/provider.go:604-610 | the loop copies exactly the fields there are, each with its content |
| ClaimCopy.CloneItems | auth/oidc/provider.go:616-621 | the same for a slice, in order |
| ClaimCopy.CloneClaimValue | auth/oidc/provider.go:612-625 | the same for any value; scalars are shared |
| ClaimCopy.FootGrows | auth/oidc/provider.go:612-625 | a value's content does not depend on what else is on the heap |
| TokenLifetime.LifetimeWrapsOnce | auth/oidc/provider.go:1287-1287 | the two wrap-arounds amount to one, of the true lifetime in nanoseconds |
| TokenLifetime.LifetimeIsExact | auth/oidc/provider.go:1287-1287 | the computed lifetime is the true one exactly when that fits 64-bit nanoseconds |
| TokenLifetime.LimitEnforced | auth/oidc/provider.go:1275-1297 | the limit is enforced for every maximum exactly when the lifetime fits or its remainder modulo 2^64 lies in the upper half |
| TokenLifetime.WrappedLifetimePasses | auth/oidc/provider.go:1287-1296 | a lifetime of centuries that wraps to a short one passes |
| DecisionCache.BigEndianInverts | auth/opa/cache.go:108-112 | the fixed-width length prefix determines the length |
| DecisionCache.PreimageInjective | auth/opa/cache.go:100-117 | distinct revision and input encodings are hashed from distinct bytes |
| DecisionCache.Manager.Reload | auth/opa/manager.go:233-316 | installs a bundle exactly when it was fetched, is new and compiles, and then empties the cache; otherwise nothing changes, and the outcome says why |
| DecisionCache.Manager.Evaluate | auth/opa/manager.go:396-429 | undisturbed, the cached evaluator decides as the loaded policies do, and afterwards the decision is in the cache when the input has a key |
| DecisionCache.NextKeepsInv | auth/opa/manager.go:282-290 | every step of a reload, an eviction or an evaluation keeps the cache's range invariant |
| DecisionCache.RunKeepsInv | auth/opa/manager.go:396-429 | so does every run |
| DecisionCache.EntryRange | auth/opa/manager.go:490-500 | an entry was computed from a bundle no older than one with its revision and at most the successor of one |
| DecisionCache.RunKeepsLoads | auth/opa/manager.go:413-413 | the recorded load of every entry and evaluation is a load of the run that saw the recorded bundles |
| DecisionCache.EntryNeverOlder | auth/opa/manager.go:396-429 | without repeated revisions an entry's bundle is that of its revision exactly when its query was loaded outside the window between a reload's two stores, and the immediate successor exactly when inside |
| DecisionCache.DecisionNeverOlder | auth/opa/manager.go:396-429 | and every evaluation answers from a bundle at least as new as the one published when it began |
| DecisionCache.EvaluationBegan | auth/opa/manager.go:396-429 | an evaluation keeps its input and the revision published when it began |
| DecisionCache.DecisionHasASource | auth/opa/manager.go:396-429 | every decision returned is the cached one the evaluation looked up, or comes from the query it loaded, for its own input |
| DecisionCache.FailsWithTheQuery | auth/opa/manager.go:415-429 | an evaluation fails exactly when its query does |
| DecisionCache.CacheIsHistory | auth/opa/manager.go:286-290 | the cache holds a key exactly when an evaluation filed it and no purge or eviction came since |
| DecisionCache.NobodyWaits | auth/opa/manager.go:396-429 | evaluations and reloads never wait for each other |
| DecisionCache.StaleNeedsRepeat | auth/opa/manager.go:490-500 | an older answer is possible only for a revision installed twice |
| DecisionCache.SuccessorIsCached | auth/opa/manager.go:282-284 | for every history, every reload in it and every input, a run that caches the new bundle's decision under the old revision |
| DecisionCache.RepeatAllowsStale | auth/opa/manager.go:490-500 | for every history with a repeated revision and every input, a run that serves a decision older than the bundle the evaluation began under |
| DecisionCache.StaleExactlyOnRepeat | auth/opa/manager.go:490-500 | a stale decision is possible for a history exactly when some revision occurs in it twice |
| DecisionCache.HistoryHasDistinctNeighbours | auth/opa/manager.go:245-250 | an unchanged revision is never reloaded |
| PollLoops.Manager.StartWatching | auth/opa/manager.go:148-182 | starts at most one loop, behind the previous one's channel, and none after close |
| PollLoops.Manager.StopWatching | auth/opa/manager.go:186-201 | hands out the current loop's cancel and the latest channel to join |
| PollLoops.Manager.BeginClose | auth/opa/manager.go:365-382 | only the first Close proceeds |
| PollLoops.NextKeepsInv | auth/opa/manager.go:148-219 | every step keeps the chain of loops in order |
| PollLoops.OneLoopRuns | auth/opa/manager.go:148-219 | at most one loop polls, everything before it has exited, everything after it waits, all but the latest are cancelled |
| PollLoops.StopJoinsEarlierLoops | auth/opa/manager.go:186-201 | when StopWatching returns, every loop that existed at its lock section has exited |
| PollLoops.StopNeverStuck | auth/opa/manager.go:186-219 | no deadlock: until StopWatching returns, it can, or one of the loops it waits for can go on |
| PollLoops.LoopIsHistory | auth/opa/manager.go:148-219 | a loop polls from its first step to its exit, and is cancelled exactly by its context or by a stop section that finds it current |
| PollLoops.BothClosesReturn | auth/opa/manager.go:365-382 | a run in which a loop is started, stopped and joined, and two Close calls return |
| PollLoops.ContextEndsLoop | auth/opa/manager.go:203-219 | a run in which a loop ends with its context |
| PollLoops.LoopsAfterClose | auth/opa/manager.go:148-182 | once the closed flag is set, exactly the StartWatching that had read it before still starts its loop, and no other ever does |
| PollLoops.StartReadTheFlag | auth/opa/manager.go:149-154 | a section about to start a loop read the flag as unset and held the mutex since |
| PollLoops.NoStartAfterCloseStops | auth/opa/manager.go:365-372 | no loop starts once Close's own StopWatching section has run |
| PollLoops.LateStart | auth/opa/manager.go:152-169 | a run in which a loop starts after the flag is set |
| PollLoops.CloseJoinsEverything | auth/opa/manager.go:365-382 | from the return of any Close call, first or concurrent, every loop has exited for good |
| EventDelivery.Subscriber.Send | auth/opa/watcher.go:128-182 | an undisturbed send queues, refuses, evicts the oldest or waits, as the policy says; the drop-oldest loop ends |
| EventDelivery.UndisturbedSendAgrees | auth/opa/watcher.go:128-182 | left alone, the interleaved sender ends with the buffer that Send leaves, and is stuck exactly when Send waits |
| EventDelivery.Subscriber.CloseChannels | auth/opa/watcher.go:89-92 | closes each channel once however often it is called, done before the events |
| EventDelivery.Subscriber.CloseUnused | auth/opa/watcher.go:57-60 | closes a subscription that was never registered, the events before done |
| EventDelivery.WatchManager.Subscribe | auth/opa/watcher.go:39-77 | registers an open subscriber, or hands out one closed on both channels after close, the events first |
| EventDelivery.WatchManager.Unsubscribe | auth/opa/watcher.go:80-94 | removes a registered subscriber and closes it, done before the events, and does nothing to another |
| EventDelivery.WatchManager.Matching | auth/opa/watcher.go:100-111 | a broadcast goes to exactly the subscribers without a type filter or with the type in it, once each |
| EventDelivery.WatchManager.Close | auth/opa/watcher.go:185-201 | closes every subscriber once, done before the events, and leaves none registered |
| EventDelivery.NextKeepsInv | auth/opa/watcher.go:80-201 | every step of sender, consumer and closers keeps order, accounting, capacity and closing state |
| EventDelivery.RunKeepsInv | auth/opa/watcher.go:80-201 | so does every run |
| EventDelivery.ReceivedInOrder | auth/opa/watcher.go:100-182 | received events are broadcasts in order, without repetition, and the channel stays within capacity |
| EventDelivery.NothingVanishes | auth/opa/watcher.go:128-182 | every offered event is received, queued, dropped or being sent, and only one of these |
| EventDelivery.BlockLosesNothing | auth/opa/watcher.go:136-140 | with Block, while open, received, queued and in-flight events are, in order, all the broadcasts of the run that the subscriber wanted while registered |
| EventDelivery.OfferedIsAddressed | auth/opa/watcher.go:97-119 | what is offered is exactly the numbers of the wanted broadcasts of the run while the subscriber was registered, in order |
| EventDelivery.BroadcastIsReceived | auth/opa/watcher.go:97-182 | for every policy and capacity, a run in which a broadcast is received |
| EventDelivery.LossHasACause | auth/opa/watcher.go:121-182 | an event is lost only by closing, by a full channel under DropNewest, or from the front of the channel under DropOldest |
| EventDelivery.LateSendIsLost | auth/opa/watcher.go:121-140 | a send that meets a closing subscription ends, and its event never arrives |
| EventDelivery.StopReleasesSender | auth/opa/watcher.go:80-94 | every send to a registered subscriber can be released by a Stop, which then closes the channel |
| EventDelivery.SenderNeverStuck | auth/opa/watcher.go:121-182 | a send is stuck exactly under Block on an open subscription with a full channel, and then the consumer can receive |
| EventDelivery.DropOldestKeepsNewest | auth/opa/watcher.go:142-173 | with DropOldest, while open, the newest finished broadcast is queued or received last and drops hit only older events |
| EventDelivery.DropOldestEvictsOnce | auth/opa/watcher.go:150-173 | at most one event is evicted per broadcast, and then the send cannot overflow |
| EventDelivery.DropNewestNeedsRoom | auth/opa/watcher.go:175-181 | with DropNewest, while open, an event is queued exactly when there is room |
| EventDelivery.QueuedIsKept | auth/opa/watcher.go:136-181 | with Block and DropNewest nothing queued is ever taken back, closing included |
| EventDelivery.ClosedAtMostOnce | auth/opa/watcher.go:80-94 | racing Stops and close close each channel at most once, and never the events while done is open |
| EventDelivery.SubscribeAfterClose | auth/opa/watcher.go:39-77 | a subscription made after the manager was closed is closed on both channels at once, and one made before is registered and open |
| EventDelivery.SettledIsOpenOrClosed | auth/opa/watcher.go:185-201 | when no closer is under way a subscription is registered and open, or closed on both channels |
| SnapshotDir.Manager.EnsureSnapshotDir | plugins/snapshot.go:76-107 | creates a directory only when open and none exists |
| SnapshotDir.Manager.Acquire | plugins/snapshot.go:165-185 | counts an open in unless closed |
| SnapshotDir.Manager.Release | plugins/snapshot.go:205-214 | counts it out |
| SnapshotDir.Manager.RemoveSnapshotDir | plugins/snapshot.go:138-154 | removes only with no open active, and keeps the name when removal fails |
| SnapshotDir.NextKeepsInv | plugins/snapshot.go:138-214 | every step keeps the count of active opens and the debt of removal |
| SnapshotDir.DirOutlivesOpens | plugins/snapshot.go:165-214 | an active open's directory exists, and no step removes any while an open is active |
| SnapshotDir.DirsAfterClose | plugins/snapshot.go:76-107 | once Close has set the flag, exactly the opener that had read it before still creates its directory, and no other ever does |
| SnapshotDir.HolderReadTheFlag | plugins/snapshot.go:77-82 | a section about to create or to count an open read the flag as unset and held the lock since |
| SnapshotDir.NoDirAfterRemoval | plugins/snapshot.go:135-154 | none is created once a removal of the closed manager has run |
| SnapshotDir.LateDirectory | plugins/snapshot.go:80-105 | a run in which a directory is created after the flag is set and Close removes it |
| SnapshotDir.NoLeak | plugins/manager.go:436-460 | a closed manager with a directory left has a call that still owes its removal, or a removal failed |
| SnapshotDir.QuietMeansClean | plugins/manager.go:436-460 | when all calls are done and no removal failed, nothing is left on disk |
| SnapshotDir.RetryCleans | plugins/snapshot.go:138-154 | a removal with no open active cleans up whatever earlier ones left |
| SnapshotDir.EnsureHandsOut | plugins/snapshot.go:76-107 | a closed manager hands out no directory and makes none; what is handed out is recorded, and a recorded one is never replaced |
| SnapshotDir.LateOpenerStops | plugins/snapshot.go:165-185 | an opener that reads the flag as set, first or again, never works |
| SnapshotDir.OpenOutlivesClose | plugins/snapshot.go:138-214 | a run in which a Close leaves the directory to a working open, whose release removes it |
| SnapshotDir.CallNeverStuck | plugins/snapshot.go:76-214 | no deadlock: an unfinished call has a step to take, or the opener that holds the lock has |
| HandleCache.HandleEntry.Open | plugins/snapshot.go:56-62 | runs the open function at most once and repeats its outcome, panics included |
| HandleCache.Cache.Get | plugins/snapshot.go:61-70 | content on file is not opened again, new content once, and only a failure leaves nothing behind |
| HandleCache.NextKeepsInv | plugins/snapshot.go:61-70 | every step keeps entries filed under their hash and calls in step with their entry |
| HandleCache.OpensNeverOverlap | plugins/snapshot.go:56-70 | for one content, executions of open never overlap |
| HandleCache.SettledForever | plugins/snapshot.go:56-70 | after a success or a panic, open never runs again for that content |
| HandleCache.LaterGetsReuse | plugins/snapshot.go:61-70 | every later get ends with that very handle or panic |
| HandleCache.FailureIsRetried | plugins/snapshot.go:65-69 | after a get returned an error, no later get is handed the failed entry |
| HandleCache.DeletesOnlyOwn | plugins/snapshot.go:66-68 | a compare-and-delete removes at most the caller's own failed entry |
| HandleCache.GetReturnsOpened | plugins/snapshot.go:56-70 | a get returns what an execution of open returned, for the content the get asked for |
| HandleCache.OpenedThenReused | plugins/snapshot.go:61-70 | for every content and handle, a run in which one get opens and the next is served without opening |
| HandleCache.FailedThenOpened | plugins/snapshot.go:65-69 | a run in which the get after a failure opens again and succeeds |
| HandleCache.GetNeverStuck | plugins/snapshot.go:56-70 | no deadlock: an unfinished get has a step to take, or the call that runs open for its entry has |
| PluginLifecycle.TransitionsMoveForward | plugins/plugin.go:155-174 | the valid transitions are exactly the forward moves along Loaded, Ready, Failed, Unloaded |
| PluginLifecycle.Plugin.SetState | plugins/plugin.go:129-148 | stores the state and warns exactly on an invalid transition |
| PluginLifecycle.Plugin.Initialize | plugins/manager.go:641-669 | every Init outcome, recovered panics included, ends in Ready or Failed without a warning |
| PluginLifecycle.Manager.Register | plugins/manager.go:705-721 | registers exactly when open and the name is free; a rejected plugin is unloaded |
| PluginLifecycle.Manager.Unload | plugins/manager.go:405-419 | unloads and removes the named plugin and touches no other |
| PluginLifecycle.Manager.Quarantine | plugins/quarantine.go:87-113 | removes the named plugin and fails it, unless closed |
| PluginLifecycle.Manager.Clear | plugins/manager.go:445-453 | unloads every registered plugin, once, and empties the registry |
| PluginLifecycle.NextKeepsInv | plugins/manager.go:641-721 | every step of loads, Unload, Quarantine and Close keeps the registry invariant |
| PluginLifecycle.RunKeepsInv | plugins/manager.go:641-721 | so does every run |
| PluginLifecycle.EveryTransitionIsValid | plugins/plugin.go:129-174 | in every run the warning of setState is never logged |
| PluginLifecycle.RegisteredAreReady | plugins/manager.go:705-721 | between steps every registered plugin is Ready and under its own name; what Ready says of its past is StateTellsHistory |
| PluginLifecycle.StateTellsHistory | plugins/manager.go:641-721 | a plugin is Failed exactly when its Init did not succeed or a quarantine marked it, Unloaded exactly when Unload, Close or a refused registration hit it, Ready exactly when its Init succeeded and neither happened |
| PluginLifecycle.RegistryTellsHistory | plugins/manager.go:705-721 | a plugin is registered exactly when its load found its name free and nothing removed it since |
| PluginLifecycle.RegisteredWasInitialized | plugins/manager.go:641-676 | for every registered plugin the run has the step of its Init, and that succeeded |
| PluginLifecycle.FailedInitStaysOut | plugins/manager.go:645-664 | a plugin whose Init failed, panicked or has the wrong type is Failed from then on and never registered |
| PluginLifecycle.UnloadedAndQuarantined | plugins/manager.go:405-419 | a run that loads two plugins, unloads one and quarantines the other |
| PluginLifecycle.CallNeverStuck | plugins/manager.go:693-721 | no deadlock: an unfinished call has a step to take, or the load that holds the lock has |
| PluginLifecycle.LifecycleMovesForward | plugins/plugin.go:155-174 | a plugin's state never goes back |
| PluginLifecycle.EmptyAfterClose | plugins/manager.go:436-460 | once Close has cleared the registry it stays empty |
| PluginLifecycle.NeverComesBack | plugins/manager.go:405-419 | a plugin that left the registry is never registered again |
| PluginLifecycle.RegistryAfterFlag | plugins/manager.go:693-721 | what is registered after the flag is set was registered then, or belongs to the one load whose section had read the flag before |
| PluginLifecycle.LateEntryExactly | plugins/manager.go:705-721 | after the flag is set, the plugin of that load is registered at some point exactly when its registration step runs and finds the name free |
| PluginLifecycle.LateRegister | plugins/manager.go:708-720 | a run in which a plugin is registered after the flag is set and Close clears it |
| Quarantine.Store.IsQuarantined | plugins/quarantine.go:24-51 | true exactly for the recorded hash; an entry for another hash is dropped |
| Quarantine.Store.AddQuarantine | plugins/quarantine.go:57-72 | records the hash of the file, replacing an earlier one |
| Quarantine.Store.LoadPlugin | plugins/manager.go:557-676 | nothing of a refused file runs, no stage runs unless the one before succeeded, a panic of the open gets through, and the file ends quarantined exactly when its bytes were refused or are to blame, the blame being spelled out |
| Quarantine.Store.Clear | plugins/manager.go:455-457 | Close empties the store |
| Quarantine.LiftsExactly | plugins/quarantine.go:24-72 | a step ends the quarantine of given bytes exactly when it is one of the listed lifting steps |
| Quarantine.StaysQuarantined | plugins/quarantine.go:24-72 | until such a step the bytes stay quarantined in every run |
| Quarantine.QuarantinedNeverRuns | plugins/manager.go:557-597 | until then no step of the run verifies, opens, inspects or initialises an attempt that reads those bytes |
| Quarantine.CheckDecides | plugins/manager.go:570-572 | a check refuses exactly the bytes quarantined at that moment |
| Quarantine.RefusalIsFinal | plugins/manager.go:570-572 | a refused attempt never goes on |
| Quarantine.PluginCodeIsSigned | plugins/manager.go:574-583 | code is opened or initialised only in attempts for which a good signature step is in the run |
| Quarantine.AttemptIsHistory | plugins/manager.go:557-676 | the stages an attempt has run and the phase it is in are those its events in the run account for |
| Quarantine.StageNeedsSuccess | plugins/manager.go:557-676 | every stage of a load, and every later unload or quarantine, follows the success of the stage before it in the same attempt |
| Quarantine.BlamedIsRecorded | plugins/manager.go:557-664 | a file at fault, and no other, is about to be quarantined or has been |
| Quarantine.RecordingTakes | plugins/quarantine.go:57-72 | right after it is recorded the entry is there, for the bytes of that attempt |
| Quarantine.RefusedUntilChanged | plugins/quarantine.go:24-51 | for every file, a run in which bytes with a bad signature are quarantined and skipped, and other bytes go on |
| Quarantine.AttemptNeverStuck | plugins/manager.go:557-676 | an attempt has a step to take until it is skipped or ends |
| Quarantine.UnreadableIsRetried | plugins/manager.go:557-565 | the empty hash of an unreadable file never refuses a later attempt |
| Quarantine.EntriesHaveACause | plugins/quarantine.go:57-72 | every entry was recorded by a failure of an attempt on those bytes or by the host for a plugin loaded from them, and not lifted since |
| Quarantine.HostQuarantineLifts | plugins/quarantine.go:87-113 | for every file and two contents, a run that loads both, lets the host quarantine both, and finds the first content free again |
| Quarantine.RunKeepsInv | plugins/manager.go:557-676 | in every run the stages of an attempt happen in order |
| PluginWatcher.Manager.StartWatching | plugins/watcher.go:48-84 | starts a loop exactly when open, not watching and the watcher can be created |
| PluginWatcher.Manager.TakeOver | plugins/watcher.go:94-111 | hands over stop and done of the current loop and releases ownership |
| PluginWatcher.Manager.ResetWatchStateIfCurrent | plugins/watcher.go:206-219 | clears the state only for the loop that owns it |
| PluginWatcher.NextKeepsInv | plugins/watcher.go:48-111 | every step keeps each running loop accounted for |
| PluginWatcher.NoOrphanLoop | plugins/watcher.go:48-111 | a running loop has its context ended, is the owner, or is held or joined by the StopWatching that took it over |
| PluginWatcher.ExitRespectsOwner | plugins/watcher.go:127-130 | an exiting loop never clears a newer loop's state, and frees its own |
| PluginWatcher.StopJoins | plugins/watcher.go:94-111 | the StopWatching that takes over a loop returns only after that loop has exited |
| PluginWatcher.LoopIsHistory | plugins/watcher.go:113-130 | a loop runs, leaves, gives up the watch state and exits in that order, its context has ended exactly when the caller's did, and it is cancelled exactly by the StopWatching that holds it |
| PluginWatcher.StopNeverStuck | plugins/watcher.go:94-130 | no deadlock: an unfinished StopWatching or Close has a step to take, or the section that holds the lock or the loop it waits for has |
| PluginWatcher.NoCurrentAfterClose | plugins/manager.go:436-443 | past Close's stop there is no current loop, ever, and none is started |
| PluginWatcher.LoopsAfterClose | plugins/watcher.go:48-84 | once the closed flag is set, exactly the StartWatching that had read it before still starts its loop, and no other ever does |
| PluginWatcher.LateStart | plugins/watcher.go:52-77 | a run in which a loop starts after the flag is set |
| PluginWatcher.CloseReturned | plugins/manager.go:428-443 | when the first Close has returned, the loop it took over has exited, and every other loop that has not is held or joined by another StopWatching or leaves by itself |
| PluginWatcher.CloseWaitsExactly | plugins/manager.go:436-443 | at the StopWatching section of the first Close: in every continuation in which it returns all loops have exited, exactly when every loop other than the current one has exited at that point |
| PluginWatcher.CloseReturnsEarly | plugins/manager.go:428-443 | a run in which the first Close has returned and a loop still runs |
| PluginWatcher.RepeatedCloseReturns | plugins/manager.go:437-439 | a run in which a repeated Close has returned while a loop is current, running and not yet stopped by anyone |

## Left out

- plugin.Open, the sandbox, Landlock and resource limits: foreign calls; opens and Init are arbitrary outcomes.
- Signature and key cryptography, PEM parsing and cmd/plugin-sign: library wrappers, abstract predicates here.
- The signature modes of plugins/signature.go: the signature step of a load is one pass-or-fail answer, which includes modes that allow unsigned files.
- HTTP for discovery, JWKS, introspection and userinfo, and auth/oauth2client: network plumbing; answers are parameters.
- CEL and Rego evaluation: arbitrary deterministic functions.
- The decoding of registered claims by golang-jwt, the truncation of JSON numbers to int64, lower-casing and fmt's printing: arbitrary functions.
- The conversion of a validation section of a service configuration into options.
- JSON encoding of cached tokens: an entry read from the cache equals the one stored.
- The LRU order and time-to-live of the decision cache: entries may disappear at any time.
- Debouncing and event filtering of the plugin watch loop, and the directory scan of Load.
- PolicyBundle.calculateRevision: revisions are opaque.
- SPIFFE identifiers, auth/scope, auth/principal, auth/static, auth/mtls, configuration schemas, metrics, logging and health: easy members only.
- PollLoops.Manager.BeginClose: models the compare-and-swap at the head of Close; the joining that follows is in the state machine.
- SnapshotDir.Manager.RemoveSnapshotDir: the outcome of removing the directory on disk is a parameter.
- EventDelivery.Subscriber.Send: models the sender without interference; the interleavings are in the state machine.
