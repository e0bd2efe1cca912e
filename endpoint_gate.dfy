/**
 * The endpoint admission gate (ApiLimitingAspect): before a method carrying the limiting
 * annotation runs, the IP tier and then the request tier are checked, each only when its
 * limit is positive, and the first tier without a permit rejects the call.
 */
module EndpointGate {
  import opened Options
  import opened LimitingType
  import opened KeyRegistry
  import opened LimiterStore
  import opened Admission

  /** The elements of the @ApiLimiting annotation. */
  datatype ApiLimiting = ApiLimiting(apiRequestLimit: int, apiIpLimit: int)

  /** The annotation's defaults: 200 requests and 1 per IP. */
  const DefaultApiLimiting := ApiLimiting(200, 1)

  /** ApiLimitingData: the annotated method's name and the two limits. */
  datatype ApiLimitingData = ApiLimitingData(methodName: string, apiRequestLimit: int, apiIpLimit: int)

  /** The limits a data record carries, read back as an annotation. */
  function Limits(data: ApiLimitingData): ApiLimiting {
    ApiLimiting(data.apiRequestLimit, data.apiIpLimit)
  }

  /** getApiLimitData: the method name and both limits, copied unchanged from the annotation. */
  function GetApiLimitData(methodName: string, annotation: ApiLimiting): (data: ApiLimitingData)
    ensures data.methodName == methodName
    ensures Limits(data) == annotation
  {
    ApiLimitingData(methodName, annotation.apiRequestLimit, annotation.apiIpLimit)
  }

  /**
   * getRateLimiterKey: the method name, an underscore and the tier's code. Nothing about the
   * caller enters the key, so all callers of one method share each of its tiers' buckets.
   */
  function RateLimiterKey(data: ApiLimitingData, tier: ApiLimitingType): (key: string)
    ensures |key| == |data.methodName| + 2
    ensures key[..|data.methodName|] == data.methodName
    ensures key[|data.methodName|] == '_'
    ensures key[|data.methodName| + 1] == DigitChar(tier.Code())
  {
    data.methodName + "_" + DecimalString(tier.Code())
  }

  function IpKey(data: ApiLimitingData): string {
    RateLimiterKey(data, ApiIpLimit)
  }

  function RequestKey(data: ApiLimitingData): string {
    RateLimiterKey(data, ApiRequestLimit)
  }

  /**
   * Two keys are equal exactly when the method names and the tiers agree. The name is the
   * method's simple name, so same-named methods share their buckets.
   */
  lemma KeyInjective(d1: ApiLimitingData, t1: ApiLimitingType, d2: ApiLimitingData, t2: ApiLimitingType)
    ensures RateLimiterKey(d1, t1) == RateLimiterKey(d2, t2) <==> d1.methodName == d2.methodName && t1 == t2
  {
    var k1, k2 := RateLimiterKey(d1, t1), RateLimiterKey(d2, t2);
    if k1 == k2 {
      var n := |d1.methodName|;
      assert d1.methodName == k1[..n] == k2[..n] == d2.methodName;
      assert DigitChar(t1.Code()) == k1[n + 1] == DigitChar(t2.Code());
      CodesDistinct(t1, t2);
    }
  }

  /** For one method the IP tier key ("_2") and the request tier key ("_1") never collide. */
  lemma TierKeysDistinct(data: ApiLimitingData)
    ensures IpKey(data) != RequestKey(data)
    ensures IpKey(data) == data.methodName + "_2" && RequestKey(data) == data.methodName + "_1"
  {
    KeyInjective(data, ApiIpLimit, data, ApiRequestLimit);
    CodeValues();
  }

  /**
   * rateLimiterHandler on values: the IP tier when its limit is positive, then, unless that
   * tier did not admit, the request tier when its limit is positive. Only the two tier keys
   * can enter the registry, and every rejection carries BEYOND_RATE_LIMIT.
   */
  function Evaluate(w: World, data: ApiLimitingData): (s: Step)
    ensures w.registry <= s.world.registry
    ensures forall k :: k in s.world.registry ==> k in w.registry || k == IpKey(data) || k == RequestKey(data)
    ensures s.outcome.Rejected? ==> s.outcome.code == BeyondRateLimit
    ensures StoreValid(w.buckets) ==> StoreValid(s.world.buckets)
  {
    var afterIp := if data.apiIpLimit > 0 then Tier(w, IpKey(data), data.apiIpLimit) else Step(Admitted, w);
    if afterIp.outcome != Admitted then afterIp
    else if data.apiRequestLimit > 0 then Tier(afterIp.world, RequestKey(data), data.apiRequestLimit)
    else afterIp
  }

  /** The handler changes nothing about any key other than its two tier keys. */
  lemma OnlyTierKeysTouched(w: World, data: ApiLimitingData, k: string)
    requires k != IpKey(data) && k != RequestKey(data)
    ensures ViewAt(Evaluate(w, data).world, k) == ViewAt(w, k)
  {
    if data.apiIpLimit > 0 {
      TierTouchesOnlyItsKey(w, IpKey(data), data.apiIpLimit, k);
      var afterIp := Tier(w, IpKey(data), data.apiIpLimit);
      if afterIp.outcome == Admitted && data.apiRequestLimit > 0 {
        TierTouchesOnlyItsKey(afterIp.world, RequestKey(data), data.apiRequestLimit, k);
      }
    } else if data.apiRequestLimit > 0 {
      TierTouchesOnlyItsKey(w, RequestKey(data), data.apiRequestLimit, k);
    }
  }

  /**
   * The handler's outcome depends only on what the world holds for its two tier keys: two
   * worlds that agree there are decided alike.
   */
  lemma EvaluateReadsOnlyTierKeys(w1: World, w2: World, data: ApiLimitingData)
    requires ViewAt(w1, IpKey(data)) == ViewAt(w2, IpKey(data))
    requires ViewAt(w1, RequestKey(data)) == ViewAt(w2, RequestKey(data))
    ensures Evaluate(w1, data).outcome == Evaluate(w2, data).outcome
  {
    TierKeysDistinct(data);
    if data.apiIpLimit > 0 {
      TierReadsOnlyItsKey(w1, w2, IpKey(data), data.apiIpLimit);
      var after1 := Tier(w1, IpKey(data), data.apiIpLimit);
      var after2 := Tier(w2, IpKey(data), data.apiIpLimit);
      TierTouchesOnlyItsKey(w1, IpKey(data), data.apiIpLimit, RequestKey(data));
      TierTouchesOnlyItsKey(w2, IpKey(data), data.apiIpLimit, RequestKey(data));
      if data.apiRequestLimit > 0 {
        TierReadsOnlyItsKey(after1.world, after2.world, RequestKey(data), data.apiRequestLimit);
      }
    } else if data.apiRequestLimit > 0 {
      TierReadsOnlyItsKey(w1, w2, RequestKey(data), data.apiRequestLimit);
    }
  }

  /** A tier whose limit is not positive leaves its key's registry entry and bucket as they were. */
  lemma DisabledTierUntouched(w: World, data: ApiLimitingData)
    ensures data.apiIpLimit <= 0 ==> ViewAt(Evaluate(w, data).world, IpKey(data)) == ViewAt(w, IpKey(data))
    ensures data.apiRequestLimit <= 0 ==> ViewAt(Evaluate(w, data).world, RequestKey(data)) == ViewAt(w, RequestKey(data))
  {
    TierKeysDistinct(data);
    if data.apiIpLimit > 0 {
      TierTouchesOnlyItsKey(w, IpKey(data), data.apiIpLimit, RequestKey(data));
    }
    if data.apiRequestLimit > 0 && data.apiIpLimit > 0 {
      var afterIp := Tier(w, IpKey(data), data.apiIpLimit);
      TierTouchesOnlyItsKey(afterIp.world, RequestKey(data), data.apiRequestLimit, IpKey(data));
    }
  }

  /**
   * A rate is set only for a key the registry had not seen, whose bucket had no rate, and
   * which is the key of an enabled tier; it is then that tier's limit per one second.
   */
  lemma ConfiguresOnlyOnFirstUse(w: World, data: ApiLimitingData, k: string)
    ensures k in w.registry ==> BucketOf(Evaluate(w, data).world.buckets, k).config == BucketOf(w.buckets, k).config
    ensures BucketOf(Evaluate(w, data).world.buckets, k).config != BucketOf(w.buckets, k).config ==>
      k !in w.registry && BucketOf(w.buckets, k).config.None? &&
      ((k == IpKey(data) && data.apiIpLimit > 0 &&
        BucketOf(Evaluate(w, data).world.buckets, k).config == Some(PerSecond(data.apiIpLimit))) ||
       (k == RequestKey(data) && data.apiRequestLimit > 0 &&
        BucketOf(Evaluate(w, data).world.buckets, k).config == Some(PerSecond(data.apiRequestLimit))))
  {
    TierKeysDistinct(data);
    var ip, req := IpKey(data), RequestKey(data);
    var afterIp := if data.apiIpLimit > 0 then Tier(w, ip, data.apiIpLimit) else Step(Admitted, w);
    if data.apiIpLimit > 0 && k != ip {
      TierTouchesOnlyItsKey(w, ip, data.apiIpLimit, k);
    }
    if afterIp.outcome == Admitted && data.apiRequestLimit > 0 {
      if k != req {
        TierTouchesOnlyItsKey(afterIp.world, req, data.apiRequestLimit, k);
      }
      if data.apiIpLimit > 0 {
        TierTouchesOnlyItsKey(w, ip, data.apiIpLimit, req);
      }
    }
  }

  /**
   * An enabled tier that is reached claims its key, and a key new to registry and store ends
   * with that tier's limit per second as its rate. The IP tier, when enabled, is always reached;
   * the request tier is reached when the IP tier is disabled or admits.
   */
  lemma EnabledTiersClaimAndConfigure(w: World, data: ApiLimitingData)
    ensures data.apiIpLimit > 0 ==> IpKey(data) in Evaluate(w, data).world.registry
    ensures data.apiIpLimit > 0 && FreshKey(w, IpKey(data)) ==>
      BucketOf(Evaluate(w, data).world.buckets, IpKey(data)).config == Some(PerSecond(data.apiIpLimit))
    ensures data.apiRequestLimit > 0 && (data.apiIpLimit <= 0 || Tier(w, IpKey(data), data.apiIpLimit).outcome == Admitted) ==>
      RequestKey(data) in Evaluate(w, data).world.registry
    ensures data.apiRequestLimit > 0 && FreshKey(w, RequestKey(data)) &&
            (data.apiIpLimit <= 0 || Tier(w, IpKey(data), data.apiIpLimit).outcome == Admitted) ==>
      BucketOf(Evaluate(w, data).world.buckets, RequestKey(data)).config == Some(PerSecond(data.apiRequestLimit))
  {
    TierKeysDistinct(data);
    var ip, req := IpKey(data), RequestKey(data);
    var afterIp := if data.apiIpLimit > 0 then Tier(w, ip, data.apiIpLimit) else Step(Admitted, w);
    if data.apiIpLimit > 0 {
      TierTouchesOnlyItsKey(w, ip, data.apiIpLimit, req);
      if FreshKey(w, ip) {
        TierConsumesOnAdmit(w, ip, data.apiIpLimit);
      }
    }
    if afterIp.outcome == Admitted && data.apiRequestLimit > 0 {
      TierTouchesOnlyItsKey(afterIp.world, req, data.apiRequestLimit, ip);
      if FreshKey(w, req) {
        TierConsumesOnAdmit(afterIp.world, req, data.apiRequestLimit);
      }
    }
  }

  /**
   * When the IP tier is enabled and does not admit, the gate ends there with that tier's
   * outcome, and the request tier's registry entry and bucket are untouched.
   */
  lemma IpRejectionShortCircuits(w: World, data: ApiLimitingData)
    requires data.apiIpLimit > 0 && Tier(w, IpKey(data), data.apiIpLimit).outcome != Admitted
    ensures Evaluate(w, data) == Tier(w, IpKey(data), data.apiIpLimit)
    ensures ViewAt(Evaluate(w, data).world, RequestKey(data)) == ViewAt(w, RequestKey(data))
    ensures Coupled(w) ==> Evaluate(w, data).outcome == Rejected(BeyondRateLimit)
  {
    TierKeysDistinct(data);
    TierTouchesOnlyItsKey(w, IpKey(data), data.apiIpLimit, RequestKey(data));
    if Coupled(w) {
      TierKeepsCoupled(w, IpKey(data), data.apiIpLimit);
    }
  }

  /**
   * The handler completes normally exactly when every enabled tier, judged on the state
   * before the call, would admit: the IP tier's step does not change the request tier's view.
   */
  lemma AdmittedIffEveryEnabledTierAdmits(w: World, data: ApiLimitingData)
    ensures Evaluate(w, data).outcome == Admitted <==>
      (data.apiIpLimit <= 0 || Tier(w, IpKey(data), data.apiIpLimit).outcome == Admitted) &&
      (data.apiRequestLimit <= 0 || Tier(w, RequestKey(data), data.apiRequestLimit).outcome == Admitted)
  {
    TierKeysDistinct(data);
    if data.apiIpLimit > 0 && data.apiRequestLimit > 0 {
      var afterIp := Tier(w, IpKey(data), data.apiIpLimit);
      TierTouchesOnlyItsKey(w, IpKey(data), data.apiIpLimit, RequestKey(data));
      TierReadsOnlyItsKey(afterIp.world, w, RequestKey(data), data.apiRequestLimit);
    }
  }

  /**
   * A permit the IP tier took stays taken when the request tier then does not admit:
   * the IP bucket ends one permit below what the IP tier probed.
   */
  lemma NoRefundAcrossTiers(w: World, data: ApiLimitingData)
    requires data.apiIpLimit > 0 && data.apiRequestLimit > 0
    requires Tier(w, IpKey(data), data.apiIpLimit).outcome == Admitted
    requires Evaluate(w, data).outcome != Admitted
    ensures BucketOf(Evaluate(w, data).world.buckets, IpKey(data)).permits + 1 ==
      Prepared(w, IpKey(data), data.apiIpLimit).permits
  {
    TierKeysDistinct(data);
    var afterIp := Tier(w, IpKey(data), data.apiIpLimit);
    TierConsumesOnAdmit(w, IpKey(data), data.apiIpLimit);
    TierTouchesOnlyItsKey(afterIp.world, RequestKey(data), data.apiRequestLimit, IpKey(data));
  }

  /** From a coupled state the handler keeps registry and store coupled and never meets an uninitialised limiter. */
  lemma EvaluateKeepsCoupled(w: World, data: ApiLimitingData)
    requires Coupled(w)
    ensures Coupled(Evaluate(w, data).world)
    ensures Evaluate(w, data).outcome != StoreFault
  {
    if data.apiIpLimit > 0 {
      TierKeepsCoupled(w, IpKey(data), data.apiIpLimit);
      var afterIp := Tier(w, IpKey(data), data.apiIpLimit);
      if afterIp.outcome == Admitted && data.apiRequestLimit > 0 {
        TierKeepsCoupled(afterIp.world, RequestKey(data), data.apiRequestLimit);
      }
    } else if data.apiRequestLimit > 0 {
      TierKeepsCoupled(w, RequestKey(data), data.apiRequestLimit);
    }
  }

  /** A key this process has not seen and whose bucket has no rate yet. */
  predicate FreshKey(w: World, key: string) {
    key !in w.registry && BucketOf(w.buckets, key).config.None?
  }

  /**
   * Limits of 5 requests and 1 per IP, three calls within one interval on fresh keys: the
   * first is admitted, the second and third are rejected at the IP tier, so the request tier's
   * bucket keeps 4 of its 5 permits.
   */
  lemma ThreeCallsWithinOneInterval(w: World, methodName: string)
    requires FreshKey(w, IpKey(GetApiLimitData(methodName, ApiLimiting(5, 1))))
    requires FreshKey(w, RequestKey(GetApiLimitData(methodName, ApiLimiting(5, 1))))
    ensures var data := GetApiLimitData(methodName, ApiLimiting(5, 1));
      var first := Evaluate(w, data);
      var second := Evaluate(first.world, data);
      var third := Evaluate(second.world, data);
      first.outcome == Admitted &&
      second.outcome == Rejected(BeyondRateLimit) &&
      third.outcome == Rejected(BeyondRateLimit) &&
      BucketOf(third.world.buckets, RequestKey(data)).permits == 4
  {
    var data := GetApiLimitData(methodName, ApiLimiting(5, 1));
    var ip, req := IpKey(data), RequestKey(data);
    TierKeysDistinct(data);
    var first := Evaluate(w, data);
    TierTouchesOnlyItsKey(w, ip, 1, req);
    var afterIp := Tier(w, ip, 1);
    TierTouchesOnlyItsKey(afterIp.world, req, 5, ip);
    assert BucketOf(first.world.buckets, ip).permits == 0;
    assert BucketOf(first.world.buckets, req).permits == 4;
    var second := Evaluate(first.world, data);
    IpRejectionShortCircuits(first.world, data);
    IpRejectionShortCircuits(second.world, data);
  }

  /**
   * With the annotation's defaults the IP tier allows one call per interval: on fresh keys
   * the first call is admitted and an immediate second one is rejected.
   */
  lemma DefaultsAdmitOncePerInterval(w: World, methodName: string)
    requires FreshKey(w, IpKey(GetApiLimitData(methodName, DefaultApiLimiting)))
    requires FreshKey(w, RequestKey(GetApiLimitData(methodName, DefaultApiLimiting)))
    ensures var data := GetApiLimitData(methodName, DefaultApiLimiting);
      Evaluate(w, data).outcome == Admitted &&
      Evaluate(Evaluate(w, data).world, data).outcome == Rejected(BeyondRateLimit)
  {
    var data := GetApiLimitData(methodName, DefaultApiLimiting);
    var ip, req := IpKey(data), RequestKey(data);
    TierKeysDistinct(data);
    TierTouchesOnlyItsKey(w, ip, 1, req);
    var afterIp := Tier(w, ip, 1);
    TierTouchesOnlyItsKey(afterIp.world, req, 200, ip);
    IpRejectionShortCircuits(Evaluate(w, data).world, data);
  }

  /**
   * rateLimiterHandler: the registry and the store end as Evaluate says, and the outcome is
   * Evaluate's.
   */
  method RateLimiterHandler(keys: RateLimiterKeyUtil, store: Store, data: ApiLimitingData) returns (outcome: Outcome)
    modifies keys, store
    ensures Step(outcome, World(keys.list, store.buckets)) == Evaluate(World(old(keys.list), old(store.buckets)), data)
  {
    if data.apiIpLimit > 0 {
      var key := RateLimiterKey(data, ApiIpLimit);
      var seen := keys.Contains(key);
      if !seen {
        var _ := store.TrySetRate(key, PerSecond(data.apiIpLimit));
      }
      var permit := store.TryAcquire(key);
      if permit == NoPermit {
        return Rejected(BeyondRateLimit);
      } else if permit == NotInitialized {
        return StoreFault;
      }
    }
    if data.apiRequestLimit > 0 {
      var key := RateLimiterKey(data, ApiRequestLimit);
      var seen := keys.Contains(key);
      if !seen {
        var _ := store.TrySetRate(key, PerSecond(data.apiRequestLimit));
      }
      var permit := store.TryAcquire(key);
      if permit == NoPermit {
        return Rejected(BeyondRateLimit);
      } else if permit == NotInitialized {
        return StoreFault;
      }
    }
    return Admitted;
  }

  /** apiLimiting, the advice run before the annotated method: read the annotation, then run the handler. */
  method ApiLimitingAdvice(keys: RateLimiterKeyUtil, store: Store, methodName: string, annotation: ApiLimiting)
    returns (outcome: Outcome)
    modifies keys, store
    ensures Step(outcome, World(keys.list, store.buckets)) ==
      Evaluate(World(old(keys.list), old(store.buckets)), GetApiLimitData(methodName, annotation))
  {
    var data := GetApiLimitData(methodName, annotation);
    outcome := RateLimiterHandler(keys, store, data);
  }
}
