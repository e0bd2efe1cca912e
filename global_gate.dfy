/**
 * The global admission gate (ApiLimitingInterceptor): every request, before routing, passes one
 * tier with a fixed key and a fixed capacity of 10 per second.
 */
module GlobalGate {
  import opened Options
  import opened KeyRegistry
  import opened LimiterStore
  import opened Admission

  /** API_TOTAL_LIMIT_KEY. */
  const ApiTotalLimitKey := "ApiTotalRateLimiter"

  /** API_TOTAL_LIMIT_NUMBER: requests per second across the whole system. */
  const ApiTotalLimitNumber: PositiveInt := 10

  /**
   * preHandle on values: the global tier. A rejection carries BEYOND_RATE_LIMIT, and only the
   * global key can enter the registry.
   */
  function Evaluate(w: World): (s: Step)
    ensures s.world.registry == Claimed(w.registry, ApiTotalLimitKey)
    ensures s.outcome.Rejected? ==> s.outcome.code == BeyondRateLimit
    ensures StoreValid(w.buckets) ==> StoreValid(s.world.buckets)
  {
    Tier(w, ApiTotalLimitKey, ApiTotalLimitNumber)
  }

  /** No key other than the global one changes, neither in the registry nor in the store. */
  lemma OnlyGlobalKeyTouched(w: World, k: string)
    requires k != ApiTotalLimitKey
    ensures ViewAt(Evaluate(w).world, k) == ViewAt(w, k)
    ensures |Evaluate(w).world.registry| <= |w.registry| + 1
  {
    TierTouchesOnlyItsKey(w, ApiTotalLimitKey, ApiTotalLimitNumber, k);
  }

  /**
   * The rate 10 per second is set only when the registry has not seen the global key and the
   * store has no rate for it. A rate already in force, whether set by this process or by another
   * one sharing the store, is left alone.
   */
  lemma RateSetOnlyOnFirstUse(w: World)
    ensures ApiTotalLimitKey in w.registry ==>
      BucketOf(Evaluate(w).world.buckets, ApiTotalLimitKey).config == BucketOf(w.buckets, ApiTotalLimitKey).config
    ensures ApiTotalLimitKey !in w.registry && BucketOf(w.buckets, ApiTotalLimitKey).config.None? ==>
      BucketOf(Evaluate(w).world.buckets, ApiTotalLimitKey).config == Some(RateConfig(Overall, 10, 1, Seconds))
    ensures BucketOf(w.buckets, ApiTotalLimitKey).config.Some? ==>
      BucketOf(Evaluate(w).world.buckets, ApiTotalLimitKey).config == BucketOf(w.buckets, ApiTotalLimitKey).config
    ensures ApiTotalLimitKey in Evaluate(w).world.registry
  {
    if ApiTotalLimitKey !in w.registry && BucketOf(w.buckets, ApiTotalLimitKey).config.None? {
      TierConsumesOnAdmit(w, ApiTotalLimitKey, ApiTotalLimitNumber);
    }
  }

  /**
   * From a coupled state preHandle either admits (returns true) or rejects with
   * BEYOND_RATE_LIMIT; it never returns false and never meets an uninitialised limiter.
   */
  lemma AdmitsOrRejects(w: World)
    requires Coupled(w)
    ensures Evaluate(w).outcome == Admitted || Evaluate(w).outcome == Rejected(BeyondRateLimit)
    ensures Coupled(Evaluate(w).world)
  {
    TierKeepsCoupled(w, ApiTotalLimitKey, ApiTotalLimitNumber);
  }

  /**
   * From a fresh global bucket and with no interval elapsing, ten consecutive requests are
   * admitted and the eleventh is rejected.
   */
  lemma TenPerInterval(w: World)
    requires ApiTotalLimitKey !in w.registry && BucketOf(w.buckets, ApiTotalLimitKey).config.None?
    ensures var r := Repeat(w, ApiTotalLimitKey, ApiTotalLimitNumber, 11);
      (forall i :: 0 <= i < 10 ==> r[i] == Admitted) && r[10] == Rejected(BeyondRateLimit)
  {
    forall i | 0 <= i < 11
      ensures Repeat(w, ApiTotalLimitKey, ApiTotalLimitNumber, 11)[i] ==
        if i < 10 then Admitted else Rejected(BeyondRateLimit)
    {
      BurstFromFreshKey(w, ApiTotalLimitKey, ApiTotalLimitNumber, 11, i);
    }
  }

  /** preHandle: the registry and the store end as Evaluate says; Admitted is "returns true". */
  method PreHandle(keys: RateLimiterKeyUtil, store: Store) returns (outcome: Outcome)
    modifies keys, store
    ensures Step(outcome, World(keys.list, store.buckets)) == Evaluate(World(old(keys.list), old(store.buckets)))
  {
    var seen := keys.Contains(ApiTotalLimitKey);
    if !seen {
      var _ := store.TrySetRate(ApiTotalLimitKey, PerSecond(ApiTotalLimitNumber));
    }
    var permit := store.TryAcquire(ApiTotalLimitKey);
    if permit == NoPermit {
      return Rejected(BeyondRateLimit);
    } else if permit == NotInitialized {
      return StoreFault;
    }
    return Admitted;
  }
}
