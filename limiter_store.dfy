/**
 * An abstract stand-in for the distributed rate-limiter store (Redisson's RRateLimiter):
 * a map from limiter key to a token bucket. `getRateLimiter(key)` only yields a handle,
 * so a handle is the key itself; `trySetRate` configures a bucket once (first writer wins);
 * `tryAcquire` takes one permit without blocking; the passing of one rate interval is an
 * explicit step that refills every configured bucket.
 */
module LimiterStore {
  import opened Options

  /** Redisson's RateType: one budget shared by all clients, or one per client. */
  datatype RateType = Overall | PerClient

  /** Redisson's RateIntervalUnit. */
  datatype RateIntervalUnit = Milliseconds | Seconds | Minutes | Hours | Days

  type PositiveInt = n: int | n > 0 witness 1

  /** The arguments of `trySetRate(type, rate, rateInterval, unit)`. */
  datatype RateConfig = RateConfig(rateType: RateType, rate: PositiveInt, rateInterval: PositiveInt, unit: RateIntervalUnit)

  /** One remote bucket: its rate once set, and the permits left in the current interval. */
  datatype Bucket = Bucket(config: Option<RateConfig>, permits: nat)

  /** What `tryAcquire` observes: a permit taken, none left, or a limiter whose rate was never set. */
  datatype Permit = Acquired | NoPermit | NotInitialized

  /** A bucket that has never been configured holds nothing. */
  const Unconfigured := Bucket(None, 0)

  /** A configured bucket never holds more permits than its rate. */
  predicate BucketValid(b: Bucket) {
    match b.config
    case None => b.permits == 0
    case Some(c) => b.permits <= c.rate
  }

  ghost predicate StoreValid(buckets: map<string, Bucket>) {
    forall k :: k in buckets ==> BucketValid(buckets[k])
  }

  /** The bucket a key addresses; a key never written to is an unconfigured bucket. */
  function BucketOf(buckets: map<string, Bucket>, key: string): (b: Bucket)
    ensures key !in buckets ==> b == Unconfigured
    ensures StoreValid(buckets) ==> BucketValid(b)
  {
    if key in buckets then buckets[key] else Unconfigured
  }

  /** The rate is set only when the bucket has none; a fresh bucket then starts with a full interval. */
  function SetRateIfAbsent(b: Bucket, config: RateConfig): (r: Bucket)
    ensures r.config.Some?
    ensures b.config.Some? ==> r == b
    ensures b.config.None? ==> r.config == Some(config) && r.permits == config.rate
    ensures BucketValid(b) ==> BucketValid(r)
  {
    if b.config.None? then Bucket(Some(config), config.rate) else b
  }

  /** What a non-blocking acquisition of one permit observes. */
  function Probe(b: Bucket): (p: Permit)
    ensures p == Acquired <==> b.config.Some? && b.permits > 0
    ensures p == NotInitialized <==> b.config.None?
  {
    if b.config.None? then NotInitialized else if b.permits > 0 then Acquired else NoPermit
  }

  /** The bucket after one permit was taken. */
  function Take(b: Bucket): (r: Bucket)
    requires Probe(b) == Acquired
    ensures r.config == b.config && r.permits + 1 == b.permits
    ensures BucketValid(b) ==> BucketValid(r)
  {
    b.(permits := b.permits - 1)
  }

  /** The bucket once a new rate interval has begun. */
  function Refill(b: Bucket): (r: Bucket)
    ensures r.config == b.config
    ensures b.config.Some? ==> r.permits == b.config.value.rate
    ensures BucketValid(b) ==> BucketValid(r)
  {
    match b.config
    case None => b
    case Some(c) => Bucket(b.config, c.rate)
  }

  /** The store after `trySetRate(key, config)`. */
  function SetRate(buckets: map<string, Bucket>, key: string, config: RateConfig): (r: map<string, Bucket>)
    ensures BucketOf(r, key) == SetRateIfAbsent(BucketOf(buckets, key), config)
    ensures forall k :: k != key ==> BucketOf(r, k) == BucketOf(buckets, k)
    ensures StoreValid(buckets) ==> StoreValid(r)
  {
    if BucketOf(buckets, key).config.None? then buckets[key := SetRateIfAbsent(BucketOf(buckets, key), config)]
    else buckets
  }

  /** The store after `tryAcquire(key)`: only a granted permit changes it. */
  function Acquire(buckets: map<string, Bucket>, key: string): (r: map<string, Bucket>)
    ensures Probe(BucketOf(buckets, key)) == Acquired ==> BucketOf(r, key) == Take(BucketOf(buckets, key))
    ensures Probe(BucketOf(buckets, key)) != Acquired ==> r == buckets
    ensures forall k :: k != key ==> BucketOf(r, k) == BucketOf(buckets, k)
    ensures StoreValid(buckets) ==> StoreValid(r)
  {
    var b := BucketOf(buckets, key);
    if Probe(b) == Acquired then buckets[key := Take(b)] else buckets
  }

  /** The store after one rate interval has elapsed. */
  function RefillAll(buckets: map<string, Bucket>): (r: map<string, Bucket>)
    ensures forall k :: BucketOf(r, k) == Refill(BucketOf(buckets, k))
    ensures StoreValid(buckets) ==> StoreValid(r)
  {
    map k | k in buckets :: Refill(buckets[k])
  }

  /** First writer wins: a second `trySetRate`, with whatever arguments, changes nothing. */
  lemma FirstWriterWins(buckets: map<string, Bucket>, key: string, first: RateConfig, second: RateConfig)
    ensures SetRate(SetRate(buckets, key, first), key, second) == SetRate(buckets, key, first)
    ensures BucketOf(SetRate(SetRate(buckets, key, first), key, second), key).config == Some(first)
      || BucketOf(buckets, key).config.Some?
  {
  }

  /** The answers of `n` consecutive acquisitions on one key, with no interval elapsing. */
  function Burst(buckets: map<string, Bucket>, key: string, n: nat): (r: seq<Permit>)
    ensures |r| == n
  {
    if n == 0 then [] else [Probe(BucketOf(buckets, key))] + Burst(Acquire(buckets, key), key, n - 1)
  }

  /**
   * A configured bucket with p permits grants exactly the first p of a burst and refuses the
   * rest; an unconfigured one reports every attempt as uninitialised.
   */
  lemma {:induction false} BurstGrantsRemainingPermits(buckets: map<string, Bucket>, key: string, n: nat, i: nat)
    requires i < n
    ensures BucketOf(buckets, key).config.None? ==> Burst(buckets, key, n)[i] == NotInitialized
    ensures BucketOf(buckets, key).config.Some? ==>
      Burst(buckets, key, n)[i] == (if i < BucketOf(buckets, key).permits then Acquired else NoPermit)
    decreases n
  {
    if i > 0 {
      BurstGrantsRemainingPermits(Acquire(buckets, key), key, n - 1, i - 1);
    }
  }

  /** The store: every bucket the service has addressed, keyed by limiter name. */
  class Store {
    var buckets: map<string, Bucket>

    /** An empty store: every key is an unconfigured bucket. */
    constructor ()
      ensures buckets == map[]
      ensures StoreValid(buckets)
    {
      buckets := map[];
    }

    /** The bucket a handle for `key` refers to; two handles for one key see the same bucket. */
    function Get(key: string): (b: Bucket)
      reads this
      ensures StoreValid(buckets) ==> BucketValid(b)
    {
      BucketOf(buckets, key)
    }

    /** `trySetRate`: reports whether the rate was set, which happens only on an unconfigured bucket. */
    method TrySetRate(key: string, config: RateConfig) returns (rateSet: bool)
      modifies this
      ensures rateSet == old(Get(key)).config.None?
      ensures buckets == SetRate(old(buckets), key, config)
    {
      rateSet := BucketOf(buckets, key).config.None?;
      if rateSet {
        buckets := buckets[key := Bucket(Some(config), config.rate)];
      }
    }

    /** `tryAcquire`: takes one permit when one is left; never waits. */
    method TryAcquire(key: string) returns (p: Permit)
      modifies this
      ensures p == Probe(old(Get(key)))
      ensures buckets == Acquire(old(buckets), key)
    {
      var b := BucketOf(buckets, key);
      p := Probe(b);
      if p == Acquired {
        buckets := buckets[key := b.(permits := b.permits - 1)];
      }
    }

    /** One rate interval elapses: every configured bucket is full again. */
    method NewInterval()
      modifies this
      ensures buckets == RefillAll(old(buckets))
    {
      buckets := map k | k in buckets :: Refill(buckets[k]);
    }
  }
}
