# Request admission for api-limiting, modelled in Dafny

The service guards its HTTP endpoints with rate limiters kept in a shared Redis store
(Redisson `RRateLimiter`). Every request first passes a **global gate** (`ApiLimitingInterceptor`):
one bucket under the fixed key `ApiTotalRateLimiter`, 10 permits per second. A method annotated
with `@ApiLimiting` then passes an **endpoint gate** (`ApiLimitingAspect`): first the "IP" tier,
then the "request" tier. A tier whose limit is not positive is skipped. The first tier without a
permit throws the business exception `BEYOND_RATE_LIMIT` (code 1000). Each tier sets its bucket's
rate (limit per 1 second, `OVERALL`) only when a process-wide **key registry**
(`RateLimiterKeyUtil`) reports the key as seen for the first time. The registry's `contains`
claims a key: the first call inserts it and answers `false`; later calls answer `true`.

Modules:

- `KeyRegistry` (key_registry.dfy): the registry as a class with a `seq<string>` list. Its
  `Contains` method is specified by the function `Claimed`. Lemmas cover a whole sequence of calls.
- `LimiterStore` (limiter_store.dfy): an abstract token-bucket store standing in for Redisson.
  It maps each key to a bucket (rate config once set, permits left). `trySetRate` sets a rate
  only if none is set (first writer wins). `tryAcquire` takes one permit if one is left, and
  never waits. A limiter whose rate was never set is reported as `NotInitialized`: Redisson
  throws in that case. The passing of one rate interval is the explicit step `NewInterval`.
- `Admission` (admission.dfy): the state both gates work on (`World` = registry list + buckets),
  their outcome (`Admitted`, `Rejected(code)`, `StoreFault`) and the shared tier step `Tier`.
  Also the frame lemmas, the coupling invariant and burst lemmas for that step.
- `EndpointGate` (endpoint_gate.dfy): the annotation, `ApiLimitingData`, key derivation, the
  two-tier handler as a function `Evaluate` and as the imperative method `RateLimiterHandler`.
- `GlobalGate` (global_gate.dfy): `preHandle` as the function `Evaluate` and the method `PreHandle`.
- `LimitingType` (limiting_type.dfy): the tier enum and its codes 1 and 2.
- `Pipeline` (pipeline.dfy): one request through the interceptor and then the aspect.
- `Options` (options.dfy): the `Option` datatype.

The methods of the registry, the store and the gates change state in place. Their contracts
tie the new state and the outcome to the value-level functions (`Claimed`, `SetRate`, `Acquire`,
`Evaluate`). The lemmas state the properties about those functions.

Behaviour of the code worth knowing, which the model follows:

- The annotation's `apiIpLimit` (annotation/ApiLimiting.java:15-16) and the log message at
  ApiLimitingAspect.java:60 speak of a per-IP limit. The key built at ApiLimitingAspect.java:103
  holds no client address, so all callers of one method share the IP bucket. With limits 5 and 1,
  the first call in an interval is admitted and every later call in that interval is rejected,
  whoever makes it.
- The IP tier's key is `methodName + "_2"`, and the request tier's key is `methodName + "_1"`.
- The method name is `Method.getName()` (ApiLimitingAspect.java:90), the simple name. Two annotated
  methods with the same name, in different controllers or as overloads, share both buckets.
- The global capacity is the constant 10. The comment beside it speaks of 30.
- A tier's rate is set only when this process's registry has not seen the key. A store rate
  that already exists (set by another process) is kept, because `trySetRate` does nothing then.

## Model

| member | source | states |
|---|---|---|
| `LimitingType.ApiLimitingType.Code` | src/main/java/com/ocean/angel/tool/constant/ApiLimitingTypeEnum.java:20-22 | Each tier's code is a single decimal digit. |
| `LimitingType.ApiLimitingType.Msg` | src/main/java/com/ocean/angel/tool/constant/ApiLimitingTypeEnum.java:24-26 | Each tier has a non-empty description, the one it was declared with. |
| `LimitingType.DecimalString` | src/main/java/com/ocean/angel/tool/aspect/ApiLimitingAspect.java:103 | The decimal rendering used when a code is appended to a key is non-empty and all digits. It is one character exactly when the number is below 10, and a longer rendering has no leading zero. |
| `LimitingType.DecimalStringDenotes` | src/main/java/com/ocean/angel/tool/aspect/ApiLimitingAspect.java:103 | Read back as a decimal number, the rendering of n is n. |
| `LimitingType.CodeValues` | src/main/java/com/ocean/angel/tool/constant/ApiLimitingTypeEnum.java:8-9 | API_REQUEST_LIMIT has code 1 and API_IP_LIMIT has code 2, rendered "1" and "2". |
| `LimitingType.CodesDistinct` | src/main/java/com/ocean/angel/tool/constant/ApiLimitingTypeEnum.java:8-9 | Two tiers have equal codes, or equal rendered codes, exactly when they are the same tier. |
| `KeyRegistry.Claimed` | src/main/java/com/ocean/angel/tool/util/RateLimiterKeyUtil.java:17-27 | After a call the key is in the list. The list gains nothing else, keeps the old list as a prefix and grows by at most one. It grows exactly when the key was absent. It stays free of duplicates. |
| `KeyRegistry.ClaimIdempotent` | src/main/java/com/ocean/angel/tool/util/RateLimiterKeyUtil.java:20-26 | A second call with the same key changes nothing. |
| `KeyRegistry.Responses` | src/main/java/com/ocean/angel/tool/util/RateLimiterKeyUtil.java:17-27 | A sequence of calls gives one answer per call. |
| `KeyRegistry.Registered` | src/main/java/com/ocean/angel/tool/util/RateLimiterKeyUtil.java:12-23 | After a sequence of calls the list holds exactly the old entries and the asked keys. The old list is still a prefix, and no duplicates appear. |
| `KeyRegistry.AnswerIsFalseOnFirstUseOnly` | src/main/java/com/ocean/angel/tool/util/RateLimiterKeyUtil.java:20-26 | In any sequence of calls, call i answers false exactly when its key was neither in the list at the start nor asked earlier. |
| `KeyRegistry.AtMostOneFirstUse` | src/main/java/com/ocean/angel/tool/util/RateLimiterKeyUtil.java:20-26 | Of two calls with the same key, the later one answers true, so at most one call per key answers false. |
| `KeyRegistry.TwiceInARow` | src/main/java/com/ocean/angel/tool/util/RateLimiterKeyUtil.java:20-26 | Two calls in a row with an absent key answer false, then true. |
| `KeyRegistry.RateLimiterKeyUtil.constructor` | src/main/java/com/ocean/angel/tool/util/RateLimiterKeyUtil.java:12 | The list starts empty. |
| `KeyRegistry.RateLimiterKeyUtil.Contains` | src/main/java/com/ocean/angel/tool/util/RateLimiterKeyUtil.java:17-27 | Answers whether the key was present. If it was absent, appends exactly that key; if present, leaves the list unchanged. |
| `LimiterStore.BucketOf` | src/main/java/com/ocean/angel/tool/aspect/ApiLimitingAspect.java:51 | A key never written to addresses an unconfigured, empty bucket. Buckets of a valid store are valid. |
| `LimiterStore.SetRateIfAbsent` | src/main/java/com/ocean/angel/tool/aspect/ApiLimitingAspect.java:55 | Afterwards the bucket has a rate. An existing rate is kept unchanged. An unset one becomes the given config with a full interval of permits. |
| `LimiterStore.Probe` | src/main/java/com/ocean/angel/tool/aspect/ApiLimitingAspect.java:59 | A permit is granted exactly when the bucket is configured and has a permit left. "Not initialised" is reported exactly when no rate was set. |
| `LimiterStore.Take` | src/main/java/com/ocean/angel/tool/aspect/ApiLimitingAspect.java:59 | Taking a permit lowers the count by exactly one and keeps the rate. |
| `LimiterStore.Refill` | src/main/java/com/ocean/angel/tool/aspect/ApiLimitingAspect.java:55 | A new interval gives a configured bucket its full rate of permits again and keeps its config. |
| `LimiterStore.SetRate` | src/main/java/com/ocean/angel/tool/aspect/ApiLimitingAspect.java:55 | `trySetRate` affects only its own key's bucket. It keeps the store valid. |
| `LimiterStore.Acquire` | src/main/java/com/ocean/angel/tool/aspect/ApiLimitingAspect.java:59 | `tryAcquire` changes the store only when a permit is granted, and then only its own key's bucket. |
| `LimiterStore.RefillAll` | src/main/java/com/ocean/angel/tool/aspect/ApiLimitingAspect.java:55 | An elapsed interval refills every bucket and keeps the store valid. |
| `LimiterStore.FirstWriterWins` | src/main/java/com/ocean/angel/tool/aspect/ApiLimitingAspect.java:54-56 | A second `trySetRate` on one key, with any arguments, changes nothing. The rate in force is the first one set. |
| `LimiterStore.Burst` | src/main/java/com/ocean/angel/tool/aspect/ApiLimitingAspect.java:59 | n consecutive acquisitions give n answers. |
| `LimiterStore.BurstGrantsRemainingPermits` | src/main/java/com/ocean/angel/tool/aspect/ApiLimitingAspect.java:59-62 | A configured bucket with p permits grants exactly the first p of a burst and refuses the rest. An unconfigured one reports every attempt as not initialised. |
| `LimiterStore.Store.constructor` | src/main/java/com/ocean/angel/tool/aspect/ApiLimitingAspect.java:31-32 | The store starts with no buckets and is valid. |
| `LimiterStore.Store.Get` | src/main/java/com/ocean/angel/tool/aspect/ApiLimitingAspect.java:51 | The handle for a key is the key, so two handles for one key see the same bucket. That bucket is valid in a valid store. |
| `LimiterStore.Store.TrySetRate` | src/main/java/com/ocean/angel/tool/aspect/ApiLimitingAspect.java:55 | Reports whether the rate was set, which happens only on an unconfigured bucket. The new store is `SetRate` of the old. |
| `LimiterStore.Store.TryAcquire` | src/main/java/com/ocean/angel/tool/aspect/ApiLimitingAspect.java:59 | Returns what the old bucket allowed. The new store is `Acquire` of the old. |
| `LimiterStore.Store.NewInterval` | src/main/java/com/ocean/angel/tool/aspect/ApiLimitingAspect.java:55 | After one interval every configured bucket is full again. |
| `Admission.PerSecond` | src/main/java/com/ocean/angel/tool/aspect/ApiLimitingAspect.java:55 | The rate the gates set is (OVERALL, limit, 1, SECONDS). |
| `Admission.OutcomeOf` | src/main/java/com/ocean/angel/tool/aspect/ApiLimitingAspect.java:59-62 | Only a granted permit admits. A refused one throws BEYOND_RATE_LIMIT (1000). An uninitialised limiter is a store fault. |
| `Admission.Tier` | src/main/java/com/ocean/angel/tool/aspect/ApiLimitingAspect.java:48-63 | One tier claims its key in the registry. It admits exactly when the key is new to both registry and store, or its bucket has a rate and a permit left. It faults exactly when the registry has the key but the store has no rate. It never reconfigures a key the registry had seen. A tier that does not admit leaves its bucket unchanged. |
| `Admission.TierTouchesOnlyItsKey` | src/main/java/com/ocean/angel/tool/aspect/ApiLimitingAspect.java:50-62 | A tier leaves every other key's registry entry and bucket as they were. |
| `Admission.TierReadsOnlyItsKey` | src/main/java/com/ocean/angel/tool/aspect/ApiLimitingAspect.java:50-62 | A tier's outcome and its effect on its own key depend only on that key's registry entry and bucket. |
| `Admission.TierConsumesOnAdmit` | src/main/java/com/ocean/angel/tool/aspect/ApiLimitingAspect.java:59 | An admitting tier leaves its bucket one permit below the bucket it probed. |
| `Admission.FreshRegistryIsCoupled` | src/main/java/com/ocean/angel/tool/util/RateLimiterKeyUtil.java:12 | An empty registry is coupled with any store. |
| `Admission.TierKeepsCoupled` | src/main/java/com/ocean/angel/tool/aspect/ApiLimitingAspect.java:54-59 | If every registered key has a rate in the store, a tier keeps that true and never meets an uninitialised limiter. |
| `Admission.Repeat` | src/main/java/com/ocean/angel/tool/aspect/ApiLimitingAspect.java:48-63 | n passes through one tier give n outcomes. |
| `Admission.RepeatDrainsPermits` | src/main/java/com/ocean/angel/tool/aspect/ApiLimitingAspect.java:59-62 | Once a key is claimed and configured, a burst is admitted while permits last and rejected with 1000 after. |
| `Admission.BurstFromFreshKey` | src/main/java/com/ocean/angel/tool/aspect/ApiLimitingAspect.java:54-62 | From a key that is new to registry and store, a burst admits exactly the first `limit` passes and rejects every later one, for every limit of at least 1. |
| `Admission.RefillKeepsCoupled` | src/main/java/com/ocean/angel/tool/aspect/ApiLimitingAspect.java:55 | An elapsed interval changes no rate, so registry and store stay coupled. |
| `Admission.RepeatAdmitsPreparedPermits` | src/main/java/com/ocean/angel/tool/aspect/ApiLimitingAspect.java:54-62 | When the probed bucket has a rate, a burst is admitted for exactly as many passes as that bucket had permits, and rejected after. |
| `Admission.RepeatFaultsWithoutRate` | src/main/java/com/ocean/angel/tool/aspect/ApiLimitingAspect.java:54-59 | A key the registry holds but whose rate the store has lost faults on every pass. |
| `Admission.BurstBoundedByRate` | src/main/java/com/ocean/angel/tool/aspect/ApiLimitingAspect.java:55-62 | In a valid store, no key admits more passes in one interval than the rate it has in force. This also holds when the registry keeps a key whose rate the store lost. |
| `Admission.RefillReadmits` | src/main/java/com/ocean/angel/tool/aspect/ApiLimitingAspect.java:55-59 | After an interval elapses, a claimed and configured key is admitted again. |
| `EndpointGate.GetApiLimitData` | src/main/java/com/ocean/angel/tool/aspect/ApiLimitingAspect.java:84-97 | The record carries the method name, and reading its limits back gives exactly the annotation. |
| `EndpointGate.RateLimiterKey` | src/main/java/com/ocean/angel/tool/aspect/ApiLimitingAspect.java:102-104 | The key is the method name, then '_', then the tier's code digit. Nothing about the caller enters it. |
| `EndpointGate.KeyInjective` | src/main/java/com/ocean/angel/tool/aspect/ApiLimitingAspect.java:102-104 | Two keys are equal exactly when method name and tier both agree. |
| `EndpointGate.TierKeysDistinct` | src/main/java/com/ocean/angel/tool/aspect/ApiLimitingAspect.java:102-104 | For one method the IP key is name+"_2" and the request key is name+"_1", so they differ. |
| `EndpointGate.Evaluate` | src/main/java/com/ocean/angel/tool/aspect/ApiLimitingAspect.java:46-79 | The handler only adds to the registry, and only the two tier keys. Every rejection carries 1000. It keeps the store valid. |
| `EndpointGate.OnlyTierKeysTouched` | src/main/java/com/ocean/angel/tool/aspect/ApiLimitingAspect.java:46-79 | Every key other than the two tier keys keeps its registry entry and its bucket. |
| `EndpointGate.EvaluateReadsOnlyTierKeys` | src/main/java/com/ocean/angel/tool/aspect/ApiLimitingAspect.java:46-79 | Two states that agree on the registry entry and bucket of both tier keys get the same outcome from the handler. |
| `EndpointGate.DisabledTierUntouched` | src/main/java/com/ocean/angel/tool/aspect/ApiLimitingAspect.java:48-78 | A tier whose limit is <= 0 leaves its key's registry entry and bucket untouched. |
| `EndpointGate.ConfiguresOnlyOnFirstUse` | src/main/java/com/ocean/angel/tool/aspect/ApiLimitingAspect.java:54-71 | A key the registry had seen keeps its rate. A rate changes only on an enabled tier's key that was unseen and unconfigured, and becomes that tier's limit per second. |
| `EndpointGate.EnabledTiersClaimAndConfigure` | src/main/java/com/ocean/angel/tool/aspect/ApiLimitingAspect.java:48-71 | An enabled tier that is reached leaves its key in the registry. A key new to registry and store ends with that tier's limit per second as its rate. The IP tier, when enabled, is always reached. The request tier is reached when the IP tier is disabled or admits. |
| `EndpointGate.IpRejectionShortCircuits` | src/main/java/com/ocean/angel/tool/aspect/ApiLimitingAspect.java:59-65 | If the IP tier does not admit, the handler ends with its outcome and the request tier is untouched. From a coupled state that outcome is BEYOND_RATE_LIMIT. |
| `EndpointGate.AdmittedIffEveryEnabledTierAdmits` | src/main/java/com/ocean/angel/tool/aspect/ApiLimitingAspect.java:46-79 | The handler completes normally exactly when every enabled tier, judged on the state before the call, admits. |
| `EndpointGate.NoRefundAcrossTiers` | src/main/java/com/ocean/angel/tool/aspect/ApiLimitingAspect.java:59-77 | If the IP tier admits and the request tier then rejects, the IP tier's permit stays consumed. |
| `EndpointGate.EvaluateKeepsCoupled` | src/main/java/com/ocean/angel/tool/aspect/ApiLimitingAspect.java:46-79 | From a coupled state the handler keeps the coupling and never meets an uninitialised limiter. |
| `EndpointGate.ThreeCallsWithinOneInterval` | src/main/java/com/ocean/angel/tool/aspect/ApiLimitingAspect.java:48-78 | Limits (5, 1), fresh keys, one interval: call 1 is admitted and calls 2 and 3 are rejected at the IP tier. The request bucket keeps 4 permits. |
| `EndpointGate.DefaultsAdmitOncePerInterval` | src/main/java/com/ocean/angel/tool/annotation/ApiLimiting.java:13-16 | With the default limits (200, 1), the first call on fresh keys is admitted and an immediate second call is rejected. |
| `EndpointGate.RateLimiterHandler` | src/main/java/com/ocean/angel/tool/aspect/ApiLimitingAspect.java:46-79 | The imperative handler's outcome, registry and store are those of `Evaluate` on the old state. |
| `EndpointGate.ApiLimitingAdvice` | src/main/java/com/ocean/angel/tool/aspect/ApiLimitingAspect.java:37-41 | The advice reads the annotation, then runs the handler on that data. |
| `GlobalGate.Evaluate` | src/main/java/com/ocean/angel/tool/interceptor/ApiLimitingInterceptor.java:29-43 | The global gate claims only `ApiTotalRateLimiter` in the registry. Every rejection carries 1000. It keeps the store valid. |
| `GlobalGate.OnlyGlobalKeyTouched` | src/main/java/com/ocean/angel/tool/interceptor/ApiLimitingInterceptor.java:31-41 | No key other than the global one changes, in the registry or in the store. |
| `GlobalGate.RateSetOnlyOnFirstUse` | src/main/java/com/ocean/angel/tool/interceptor/ApiLimitingInterceptor.java:33-35 | The rate of 10 per 1 second is set only when the global key is new to the registry and unconfigured. A registered key keeps its rate. A rate already in the store, even one set by another process, is kept. |
| `GlobalGate.AdmitsOrRejects` | src/main/java/com/ocean/angel/tool/interceptor/ApiLimitingInterceptor.java:38-42 | From a coupled state `preHandle` admits (returns true) or rejects with 1000. It never returns false. |
| `GlobalGate.TenPerInterval` | src/main/java/com/ocean/angel/tool/interceptor/ApiLimitingInterceptor.java:18-42 | From a fresh global bucket, with no refill, the first 10 requests are admitted and the 11th is rejected. |
| `GlobalGate.PreHandle` | src/main/java/com/ocean/angel/tool/interceptor/ApiLimitingInterceptor.java:29-43 | The imperative `preHandle`'s outcome, registry and store are those of `Evaluate` on the old state. |
| `Pipeline.Serve` | src/main/java/com/ocean/angel/tool/config/WebConfig.java:19-21 | A request the global gate does not admit never reaches the endpoint gate. A method without the annotation passes only the global gate. Every rejection carries 1000. The store stays valid. |
| `Pipeline.ServeAdmittedIffBothGatesAdmit` | src/main/java/com/ocean/angel/tool/config/WebConfig.java:19-21 | On an annotated route a request is admitted exactly when the global gate admits it and the endpoint gate, judged on the state before the request, admits it too. Once the global gate admits, its permit stays taken whatever the endpoint gate decides. |
| `Pipeline.ServeKeepsCoupled` | src/main/java/com/ocean/angel/tool/config/WebConfig.java:19-21 | From a coupled state a whole request keeps the coupling and never meets an uninitialised limiter. |
| `Pipeline.GlobalKeyIsNoEndpointKey` | src/main/java/com/ocean/angel/tool/interceptor/ApiLimitingInterceptor.java:18 | The global key never equals an endpoint tier key. |
| `Pipeline.FirstRequestAdmitted` | src/main/java/com/ocean/angel/tool/controller/TestController.java:16-20 | On a fresh registry and store, the first request to the (5, 1) endpoint passes all three tiers. |
| `Pipeline.LaterRequestRejected` | src/main/java/com/ocean/angel/tool/controller/TestController.java:16-20 | Within that interval, each later request takes a global permit (never refunded) and is rejected at the exhausted IP tier. |
| `Pipeline.ThreeRapidRequests` | src/main/java/com/ocean/angel/tool/controller/TestController.java:16-20 | Three rapid requests: admitted, rejected, rejected. The global bucket has 7 of 10 permits left. |

## Left out

- Redisson itself (its Lua scripts, Redis, real-time refill): replaced by the abstract bucket store above. Time is the explicit `NewInterval` step. `PerClient` rate types are declared but no code path uses them.
- Store failures other than an uninitialised limiter (network or Redis errors): not modelled. The uninitialised case is `StoreFault`, and it is proved impossible while registry and store are coupled.
- A rate that the store loses while this process's registry keeps the key (Redis eviction or flush) is not modelled beyond `Admission.Tier`'s fault condition. In that case every later call on the key ends in `StoreFault` until the process restarts and its registry is empty again.
- Concurrency: the non-atomic check-then-add in `RateLimiterKeyUtil.contains` and races between processes on the shared store are not modelled. Calls are sequential.
- Spring and AspectJ plumbing: the pointcut, the interceptor registration and the `HttpServletRequest`/`HttpServletResponse` parameters. `Pipeline.Serve` stands for the order in which they run.
- Reflection in `getApiLimitData` (`MethodSignature`, `getAnnotation`): the model takes the method name and the annotation values directly.
- Logging with `System.currentTimeMillis()`: not modelled.
- The `BusinessException` class is not part of this model. It is the outcome `Rejected(1000)`.
- `ResultCode`'s other constants (200, 500) are not used by the core. Only 1000 is modelled.
- `ApplicationTests`' 50-request loop only logs responses and is not modelled. The controller's limits (5, 1) appear as scenarios.
- Java `int` width: limits are passed through and never computed on. Permit counts are natural numbers. A rate must be positive (`PositiveInt`). The gates only set rates under a `> 0` guard or from the constant 10.
- `KeyRegistry.Responses`: its own contract states only the length. What each answer is, is stated by `KeyRegistry.AnswerIsFalseOnFirstUseOnly`.
- `LimiterStore.Burst`: its own contract states only the length. Which attempts are granted is stated by `LimiterStore.BurstGrantsRemainingPermits`.
- `Admission.Repeat`: its own contract states only the length. Which passes are admitted is stated by `Admission.RepeatDrainsPermits` and `Admission.BurstFromFreshKey`.
