/**
 * The step both admission gates repeat for each enabled tier: claim the key in the registry,
 * set the bucket's rate (limit per one second, OVERALL) only when the claim was the key's
 * first use, then try to take one permit. The state the step works on is the registry list
 * together with the store's buckets.
 */
module Admission {
  import opened Options
  import opened KeyRegistry
  import opened LimiterStore

  /** ResultCode.BEYOND_RATE_LIMIT. */
  const BeyondRateLimit := 1000

  /**
   * How a gate ends: it completes normally (Admitted), it throws the business exception
   * carrying a result code (Rejected), or the store throws because the limiter was never
   * initialised (StoreFault).
   */
  datatype Outcome = Admitted | Rejected(code: int) | StoreFault

  /** The registry list and the store's buckets. */
  datatype World = World(registry: seq<string>, buckets: map<string, Bucket>)

  /** The outcome of a gate or tier together with the state it leaves. */
  datatype Step = Step(outcome: Outcome, world: World)

  /** What a tier at `key` reads and writes: whether the key is registered, and its bucket. */
  datatype View = View(registered: bool, bucket: Bucket)

  function ViewAt(w: World, key: string): View {
    View(key in w.registry, BucketOf(w.buckets, key))
  }

  /** `trySetRate(RateType.OVERALL, limit, 1, RateIntervalUnit.SECONDS)`. */
  function PerSecond(limit: PositiveInt): (config: RateConfig)
    ensures config.rate == limit && config.rateInterval == 1
    ensures config.rateType == Overall && config.unit == Seconds
  {
    RateConfig(Overall, limit, 1, Seconds)
  }

  /**
   * The bucket the tier probes: its rate is the one already in force, or this tier's limit per
   * second when the key is new to the registry and the store has no rate for it yet.
   */
  function Prepared(w: World, key: string, limit: PositiveInt): (b: Bucket)
    ensures b.config == if key in w.registry || BucketOf(w.buckets, key).config.Some?
      then BucketOf(w.buckets, key).config else Some(PerSecond(limit))
    ensures BucketOf(w.buckets, key).config.Some? ==> b == BucketOf(w.buckets, key)
  {
    if key in w.registry then BucketOf(w.buckets, key)
    else SetRateIfAbsent(BucketOf(w.buckets, key), PerSecond(limit))
  }

  /** Maps what `tryAcquire` observed to how the tier ends. */
  function OutcomeOf(p: Permit): (o: Outcome)
    ensures o == Admitted <==> p == Acquired
    ensures o == StoreFault <==> p == NotInitialized
    ensures o.Rejected? ==> o.code == BeyondRateLimit
  {
    match p
    case Acquired => Admitted
    case NoPermit => Rejected(BeyondRateLimit)
    case NotInitialized => StoreFault
  }

  /**
   * One tier: claim `key`, set the rate if the claim was the first use, try to take a permit.
   * The tier admits exactly when the key is new to both registry and store, or its bucket is
   * configured and has a permit left; it faults exactly when the registry has the key but the
   * store has no rate for it.
   */
  function Tier(w: World, key: string, limit: PositiveInt): (s: Step)
    ensures s.world.registry == Claimed(w.registry, key)
    ensures s.outcome == Admitted <==>
      (key !in w.registry && BucketOf(w.buckets, key).config.None?) ||
      (BucketOf(w.buckets, key).config.Some? && BucketOf(w.buckets, key).permits > 0)
    ensures s.outcome == StoreFault <==> key in w.registry && BucketOf(w.buckets, key).config.None?
    ensures s.outcome.Rejected? ==> s.outcome.code == BeyondRateLimit
    ensures key in w.registry ==> BucketOf(s.world.buckets, key).config == BucketOf(w.buckets, key).config
    ensures s.outcome != Admitted ==> BucketOf(s.world.buckets, key) == BucketOf(w.buckets, key)
    ensures StoreValid(w.buckets) ==> StoreValid(s.world.buckets)
  {
    var configured := if key in w.registry then w.buckets else SetRate(w.buckets, key, PerSecond(limit));
    assert BucketOf(configured, key) == Prepared(w, key, limit);
    var outcome := OutcomeOf(Probe(Prepared(w, key, limit)));
    Step(outcome, World(Claimed(w.registry, key), Acquire(configured, key)))
  }

  /** A tier changes nothing about any other key. */
  lemma TierTouchesOnlyItsKey(w: World, key: string, limit: PositiveInt, other: string)
    requires other != key
    ensures ViewAt(Tier(w, key, limit).world, other) == ViewAt(w, other)
  {
  }

  /** A tier's outcome and its effect on its own key depend only on what the world holds for that key. */
  lemma TierReadsOnlyItsKey(w1: World, w2: World, key: string, limit: PositiveInt)
    requires ViewAt(w1, key) == ViewAt(w2, key)
    ensures Tier(w1, key, limit).outcome == Tier(w2, key, limit).outcome
    ensures ViewAt(Tier(w1, key, limit).world, key) == ViewAt(Tier(w2, key, limit).world, key)
  {
  }

  /** A granted permit is consumed for good: the tier's bucket ends one permit below the one it probed. */
  lemma TierConsumesOnAdmit(w: World, key: string, limit: PositiveInt)
    requires Tier(w, key, limit).outcome == Admitted
    ensures BucketOf(Tier(w, key, limit).world.buckets, key).permits + 1 == Prepared(w, key, limit).permits
    ensures BucketOf(Tier(w, key, limit).world.buckets, key).config == Prepared(w, key, limit).config
  {
  }

  /**
   * Every key the registry has claimed has a rate in the store. The registry only ever skips
   * configuration for such keys, so `tryAcquire` never meets an uninitialised limiter.
   */
  ghost predicate Coupled(w: World) {
    forall k :: k in w.registry ==> BucketOf(w.buckets, k).config.Some?
  }

  /** A fresh process and a fresh store are coupled; a fresh process beside a used store is too. */
  lemma FreshRegistryIsCoupled(buckets: map<string, Bucket>)
    ensures Coupled(World([], buckets))
  {
  }

  /** A tier keeps the registry and the store coupled and, from a coupled state, never faults. */
  lemma TierKeepsCoupled(w: World, key: string, limit: PositiveInt)
    requires Coupled(w)
    ensures Coupled(Tier(w, key, limit).world)
    ensures Tier(w, key, limit).outcome != StoreFault
  {
    var s := Tier(w, key, limit);
    forall k | k in s.world.registry
      ensures BucketOf(s.world.buckets, k).config.Some?
    {
      if k != key {
        TierTouchesOnlyItsKey(w, key, limit, k);
      }
    }
  }

  /** The outcomes of `n` consecutive passes through one tier, with no interval elapsing. */
  function Repeat(w: World, key: string, limit: PositiveInt, n: nat): (r: seq<Outcome>)
    ensures |r| == n
    decreases n
  {
    if n == 0 then [] else
      var s := Tier(w, key, limit);
      [s.outcome] + Repeat(s.world, key, limit, n - 1)
  }

  /** Once a key is claimed and configured, a burst is admitted while permits last and rejected after. */
  lemma {:induction false} RepeatDrainsPermits(w: World, key: string, limit: PositiveInt, n: nat, i: nat)
    requires key in w.registry && BucketOf(w.buckets, key).config.Some?
    requires i < n
    ensures Repeat(w, key, limit, n)[i] ==
      if i < BucketOf(w.buckets, key).permits then Admitted else Rejected(BeyondRateLimit)
    decreases n
  {
    if i > 0 {
      var s := Tier(w, key, limit);
      RepeatDrainsPermits(s.world, key, limit, n - 1, i - 1);
    }
  }

  /**
   * From a key this process has not seen and the store has not configured, a burst of `n`
   * passes admits exactly the first `limit` and rejects every later one.
   */
  lemma BurstFromFreshKey(w: World, key: string, limit: PositiveInt, n: nat, i: nat)
    requires key !in w.registry && BucketOf(w.buckets, key).config.None?
    requires i < n
    ensures Repeat(w, key, limit, n)[i] == if i < limit then Admitted else Rejected(BeyondRateLimit)
  {
    var s := Tier(w, key, limit);
    assert BucketOf(s.world.buckets, key).permits == limit - 1;
    if i > 0 {
      RepeatDrainsPermits(s.world, key, limit, n - 1, i - 1);
    }
  }

  /** After a rate interval elapses, a claimed and configured key is admitted again. */
  lemma RefillReadmits(w: World, key: string, limit: PositiveInt)
    requires Coupled(w) && key in w.registry
    ensures Tier(World(w.registry, RefillAll(w.buckets)), key, limit).outcome == Admitted
  {
    assert BucketOf(w.buckets, key).config.Some?;
  }

  /** An elapsed interval changes no rate, so it keeps registry and store coupled. */
  lemma RefillKeepsCoupled(w: World)
    requires Coupled(w)
    ensures Coupled(World(w.registry, RefillAll(w.buckets)))
  {
  }

  /**
   * Whenever the probed bucket has a rate, a burst is admitted for exactly as many passes as
   * that bucket had permits; later passes are rejected.
   */
  lemma RepeatAdmitsPreparedPermits(w: World, key: string, limit: PositiveInt, n: nat, i: nat)
    requires Prepared(w, key, limit).config.Some? && i < n
    ensures Repeat(w, key, limit, n)[i] ==
      if i < Prepared(w, key, limit).permits then Admitted else Rejected(BeyondRateLimit)
  {
    var s := Tier(w, key, limit);
    if i > 0 {
      assert BucketOf(s.world.buckets, key).config.Some?;
      assert BucketOf(s.world.buckets, key).permits ==
        if s.outcome == Admitted then Prepared(w, key, limit).permits - 1 else Prepared(w, key, limit).permits;
      RepeatDrainsPermits(s.world, key, limit, n - 1, i - 1);
    }
  }

  /** A key the registry holds but the store has no rate for faults on every pass. */
  lemma {:induction false} RepeatFaultsWithoutRate(w: World, key: string, limit: PositiveInt, n: nat, i: nat)
    requires key in w.registry && BucketOf(w.buckets, key).config.None? && i < n
    ensures Repeat(w, key, limit, n)[i] == StoreFault
    decreases n
  {
    if i > 0 {
      RepeatFaultsWithoutRate(Tier(w, key, limit).world, key, limit, n - 1, i - 1);
    }
  }

  /**
   * In a valid store, no key admits more passes within one interval than the rate it has in
   * force, also when the registry holds a key whose rate the store has lost.
   */
  lemma BurstBoundedByRate(w: World, key: string, limit: PositiveInt, n: nat, i: nat)
    requires StoreValid(w.buckets) && i < n
    requires Repeat(w, key, limit, n)[i] == Admitted
    ensures Prepared(w, key, limit).config.Some?
    ensures i < Prepared(w, key, limit).config.value.rate
  {
    if Prepared(w, key, limit).config.None? {
      RepeatFaultsWithoutRate(w, key, limit, n, i);
    } else {
      RepeatAdmitsPreparedPermits(w, key, limit, n, i);
    }
  }
}
