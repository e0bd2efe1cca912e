/**
 * One request through both gates: the interceptor registered for every path runs first; only
 * when it admits and the routed method carries the limiting annotation does the endpoint gate run.
 */
module Pipeline {
  import opened Options
  import opened LimiterStore
  import opened Admission
  import EndpointGate
  import GlobalGate

  /**
   * The route's limiting data, None for a method without the annotation. A request rejected
   * by the global gate never reaches the endpoint gate.
   */
  function Serve(w: World, route: Option<EndpointGate.ApiLimitingData>): (s: Step)
    ensures GlobalGate.Evaluate(w).outcome != Admitted ==> s == GlobalGate.Evaluate(w)
    ensures route.None? ==> s == GlobalGate.Evaluate(w)
    ensures s.outcome.Rejected? ==> s.outcome.code == BeyondRateLimit
    ensures StoreValid(w.buckets) ==> StoreValid(s.world.buckets)
  {
    var global := GlobalGate.Evaluate(w);
    if global.outcome != Admitted || route.None? then global
    else EndpointGate.Evaluate(global.world, route.value)
  }

  /**
   * From a coupled state a whole request keeps registry and store coupled and never meets an
   * uninitialised limiter; with `Admission.RefillKeepsCoupled` this holds across intervals.
   */
  lemma ServeKeepsCoupled(w: World, route: Option<EndpointGate.ApiLimitingData>)
    requires Coupled(w)
    ensures Coupled(Serve(w, route).world)
    ensures Serve(w, route).outcome != StoreFault
  {
    GlobalGate.AdmitsOrRejects(w);
    if route.Some? {
      EndpointGate.EvaluateKeepsCoupled(GlobalGate.Evaluate(w).world, route.value);
    }
  }

  /** The global key ends in a letter, every endpoint key in a digit: they never collide. */
  lemma GlobalKeyIsNoEndpointKey(data: EndpointGate.ApiLimitingData)
    ensures EndpointGate.IpKey(data) != GlobalGate.ApiTotalLimitKey
    ensures EndpointGate.RequestKey(data) != GlobalGate.ApiTotalLimitKey
  {
    var ip, req, total := EndpointGate.IpKey(data), EndpointGate.RequestKey(data), GlobalGate.ApiTotalLimitKey;
    EndpointGate.TierKeysDistinct(data);
    assert ip[|ip| - 1] == '2' && req[|req| - 1] == '1' && total[|total| - 1] == 'r';
  }

  /**
   * On an annotated route a request is admitted exactly when the global gate admits it and the
   * endpoint gate, judged on the state before the request, admits it too; a global permit once
   * taken stays taken, whatever the endpoint gate then decides.
   */
  lemma ServeAdmittedIffBothGatesAdmit(w: World, data: EndpointGate.ApiLimitingData)
    ensures Serve(w, Some(data)).outcome == Admitted <==>
      GlobalGate.Evaluate(w).outcome == Admitted && EndpointGate.Evaluate(w, data).outcome == Admitted
    ensures GlobalGate.Evaluate(w).outcome == Admitted ==>
      BucketOf(Serve(w, Some(data)).world.buckets, GlobalGate.ApiTotalLimitKey).permits + 1 ==
      Prepared(w, GlobalGate.ApiTotalLimitKey, GlobalGate.ApiTotalLimitNumber).permits
  {
    var ip, req, total := EndpointGate.IpKey(data), EndpointGate.RequestKey(data), GlobalGate.ApiTotalLimitKey;
    GlobalKeyIsNoEndpointKey(data);
    var g := GlobalGate.Evaluate(w);
    GlobalGate.OnlyGlobalKeyTouched(w, ip);
    GlobalGate.OnlyGlobalKeyTouched(w, req);
    EndpointGate.EvaluateReadsOnlyTierKeys(g.world, w, data);
    if g.outcome == Admitted {
      TierConsumesOnAdmit(w, total, GlobalGate.ApiTotalLimitNumber);
      EndpointGate.OnlyTierKeysTouched(g.world, data, total);
    }
  }

  /**
   * The state after `n` of the requests of the scenario below: the global bucket has given
   * out n of its 10 permits, the IP bucket (limit 1) is empty and the request bucket (limit 5)
   * has given out one; all three keys are registered.
   */
  predicate AfterRequests(w: World, data: EndpointGate.ApiLimitingData, n: nat) {
    n <= 10 &&
    ViewAt(w, GlobalGate.ApiTotalLimitKey) == View(true, Bucket(Some(PerSecond(10)), 10 - n)) &&
    ViewAt(w, EndpointGate.IpKey(data)) == View(true, Bucket(Some(PerSecond(1)), 0)) &&
    ViewAt(w, EndpointGate.RequestKey(data)) == View(true, Bucket(Some(PerSecond(5)), 4))
  }

  /** On a fresh registry and store, the first request passes all three tiers. */
  lemma FirstRequestAdmitted(methodName: string)
    ensures var data := EndpointGate.GetApiLimitData(methodName, EndpointGate.ApiLimiting(5, 1));
      Serve(World([], map[]), Some(data)).outcome == Admitted &&
      AfterRequests(Serve(World([], map[]), Some(data)).world, data, 1)
  {
    var data := EndpointGate.GetApiLimitData(methodName, EndpointGate.ApiLimiting(5, 1));
    var ip, req, total := EndpointGate.IpKey(data), EndpointGate.RequestKey(data), GlobalGate.ApiTotalLimitKey;
    EndpointGate.TierKeysDistinct(data);
    GlobalKeyIsNoEndpointKey(data);
    var w0 := World([], map[]);
    var g := GlobalGate.Evaluate(w0);
    GlobalGate.OnlyGlobalKeyTouched(w0, ip);
    GlobalGate.OnlyGlobalKeyTouched(w0, req);
    var afterIp := Tier(g.world, ip, 1);
    TierTouchesOnlyItsKey(g.world, ip, 1, total);
    TierTouchesOnlyItsKey(g.world, ip, 1, req);
    TierTouchesOnlyItsKey(afterIp.world, req, 5, total);
    TierTouchesOnlyItsKey(afterIp.world, req, 5, ip);
  }

  /**
   * Within the same interval, every later request passes the global tier (taking one of its
   * permits, never refunded) and is rejected at the exhausted IP tier.
   */
  lemma LaterRequestRejected(w: World, data: EndpointGate.ApiLimitingData, n: nat)
    requires data.apiIpLimit == 1 && data.apiRequestLimit == 5
    requires 1 <= n < 10 && AfterRequests(w, data, n)
    ensures Serve(w, Some(data)).outcome == Rejected(BeyondRateLimit)
    ensures AfterRequests(Serve(w, Some(data)).world, data, n + 1)
  {
    var ip, req, total := EndpointGate.IpKey(data), EndpointGate.RequestKey(data), GlobalGate.ApiTotalLimitKey;
    EndpointGate.TierKeysDistinct(data);
    GlobalKeyIsNoEndpointKey(data);
    var g := GlobalGate.Evaluate(w);
    GlobalGate.OnlyGlobalKeyTouched(w, ip);
    GlobalGate.OnlyGlobalKeyTouched(w, req);
    EndpointGate.IpRejectionShortCircuits(g.world, data);
    TierTouchesOnlyItsKey(g.world, ip, 1, total);
  }

  /**
   * Global capacity 10, endpoint limits 5 and 1 per IP, three rapid requests on a fresh
   * registry and store: the first is admitted, the next two are rejected, and the global
   * bucket keeps the permits all three took (7 of 10 left).
   */
  lemma ThreeRapidRequests(methodName: string)
    ensures var route := Some(EndpointGate.GetApiLimitData(methodName, EndpointGate.ApiLimiting(5, 1)));
      var first := Serve(World([], map[]), route);
      var second := Serve(first.world, route);
      var third := Serve(second.world, route);
      first.outcome == Admitted &&
      second.outcome == Rejected(BeyondRateLimit) &&
      third.outcome == Rejected(BeyondRateLimit) &&
      BucketOf(third.world.buckets, GlobalGate.ApiTotalLimitKey).permits == 7
  {
    var data := EndpointGate.GetApiLimitData(methodName, EndpointGate.ApiLimiting(5, 1));
    FirstRequestAdmitted(methodName);
    var first := Serve(World([], map[]), Some(data));
    LaterRequestRejected(first.world, data, 1);
    var second := Serve(first.world, Some(data));
    LaterRequestRejected(second.world, data, 2);
  }
}
