/**
 * `WorkHubFactory`: builds the resolver and the cachers from plain settings and
 * wires them into the hubs. A null reference of the source is `None` here, or
 * a null object where the result is an object.
 */
module WorkHubFactory {
  import opened Wrappers
  import opened Works
  import opened Resolvers
  import opened WorkHub
  import opened StatusHub

  /** The settings a `RetryResolver` is constructed with. */
  datatype ResolverConfig = ResolverConfig(retryTimes: int, tolerables: seq<ErrorType>)

  /** The exception types retried when the caller names none. */
  const DefaultTolerables: seq<ErrorType> := [WebException, TimeoutException]

  /**
   * The resolver settings, or none at all (retry disabled) when `retryTimes`
   * is not positive; missing tolerables default to `DefaultTolerables`.
   */
  function CreateResolver(retryTimes: int, tolerables: Option<seq<ErrorType>>): (r: Option<ResolverConfig>)
    ensures r.None? <==> retryTimes <= 0
    ensures r.Some? ==> r.value.retryTimes == retryTimes
    ensures r.Some? && tolerables.None? ==> r.value.tolerables == [WebException, TimeoutException]
    ensures r.Some? && tolerables.Some? ==> r.value.tolerables == tolerables.value
  {
    if retryTimes <= 0 then None
    else
      var types := if tolerables.None? then DefaultTolerables else tolerables.value;
      Some(ResolverConfig(retryTimes, types))
  }

  /** The plain cacher (`CreateCacher(maxCacheCount)`), or none when the capacity is not positive. */
  function CreateCacher(maxCacheCount: int): (c: Option<Cacher>)
    ensures c.None? <==> maxCacheCount <= 0
    ensures c.Some? ==> c.value.PlainCacher? && c.value.maxCount == maxCacheCount
  {
    if maxCacheCount <= 0 then None else Some(PlainCacher(maxCacheCount))
  }

  /** The cacher with timeout (`CreateCacher(maxCacheCount, cacheTimeout)`), or none when the capacity is not positive. */
  function CreateTimeoutCacher(maxCacheCount: int, cacheTimeout: int): (c: Option<Cacher>)
    ensures c.None? <==> maxCacheCount <= 0
    ensures c.Some? ==> c.value.TimeoutCacher? && c.value.maxCount == maxCacheCount && c.value.timeout == cacheTimeout
  {
    if maxCacheCount <= 0 then None else Some(TimeoutCacher(maxCacheCount, cacheTimeout))
  }

  /** What the constructor of a cache hub receives. */
  datatype CacheHubArgs = CacheHubArgs(
    resultCacher: Option<Cacher>,
    workCacher: Option<Cacher>,
    interval: int,
    concurrency: int,
    resolver: Option<ResolverConfig>)

  /**
   * The wiring of `CreateCacheHub` (the cache hub's own code is not part of
   * this model): the results get the timeout cacher, the works the plain one,
   * both with the same capacity.
   */
  function CreateCacheHub(interval: int := 250, concurrency: int := 10, retryTimes: int := 3,
                          tolerables: Option<seq<ErrorType>> := None,
                          maxCacheCount: int := 100, cacheTimeout: int := 5000): (a: CacheHubArgs)
    ensures a.interval == interval && a.concurrency == concurrency
    ensures a.resolver.None? <==> retryTimes <= 0
    ensures a.resolver == CreateResolver(retryTimes, tolerables)
    ensures a.resultCacher.None? <==> maxCacheCount <= 0
    ensures a.workCacher.None? <==> maxCacheCount <= 0
    ensures a.resultCacher.Some? ==> a.resultCacher.value == TimeoutCacher(maxCacheCount, cacheTimeout)
    ensures a.workCacher.Some? ==> a.workCacher.value == PlainCacher(maxCacheCount)
  {
    CacheHubArgs(CreateTimeoutCacher(maxCacheCount, cacheTimeout), CreateCacher(maxCacheCount),
                 interval, concurrency, CreateResolver(retryTimes, tolerables))
  }

  /** A resolver object for the settings, or null for none. */
  method NewResolver(config: Option<ResolverConfig>) returns (r: RetryResolver?)
    ensures r == null <==> config.None?
    ensures r != null ==> fresh(r) && r.retryTimes == config.value.retryTimes &&
                          r.tolerables == config.value.tolerables && r.ledger == {} && r.answers == []
  {
    if config.None? {
      return null;
    }
    r := new RetryResolver(config.value.retryTimes, config.value.tolerables);
  }

  /** A hub with the given interval and concurrency and the resolver `CreateResolver` derives. */
  method CreateHub(interval: int := 250, concurrency: int := 10, retryTimes: int := 3,
                   tolerables: Option<seq<ErrorType>> := None) returns (hub: AsyncWorkHub)
    ensures fresh(hub) && hub.interval == interval && hub.concurrency == concurrency
    ensures hub.waitingWorks == [] && hub.workingWorks == []
    ensures var config := CreateResolver(retryTimes, tolerables);
            (hub.resolver == null <==> config.None?) &&
            (hub.resolver != null ==> fresh(hub.resolver) && hub.resolver.retryTimes == config.value.retryTimes &&
                                      hub.resolver.tolerables == config.value.tolerables && hub.resolver.ledger == {})
    ensures hub.LedgerClean() && hub.Answers() == []
  {
    var resolver := NewResolver(CreateResolver(retryTimes, tolerables));
    hub := new AsyncWorkHub(interval, concurrency, resolver);
  }

  /** A status hub built from the same arguments a cache hub gets from `CreateCacheHub`. */
  method CreateStatusHub(interval: int := 250, concurrency: int := 10, retryTimes: int := 3,
                         tolerables: Option<seq<ErrorType>> := None,
                         maxCacheCount: int := 100, cacheTimeout: int := 5000) returns (s: AsyncWorkStatusHub)
    ensures fresh(s) && s.Valid() && s.handlers == map[]
    ensures s.hub.waitingWorks == [] && s.hub.workingWorks == []
    ensures s.hub.LedgerClean() && s.hub.Answers() == []
    ensures var args := CreateCacheHub(interval, concurrency, retryTimes, tolerables, maxCacheCount, cacheTimeout);
            s.resultCacher == args.resultCacher && s.workCacher == args.workCacher &&
            fresh(s.hub) && s.hub.interval == args.interval && s.hub.concurrency == args.concurrency &&
            (s.hub.resolver == null <==> args.resolver.None?) &&
            (s.hub.resolver != null ==> fresh(s.hub.resolver) && s.hub.resolver.retryTimes == args.resolver.value.retryTimes &&
                                        s.hub.resolver.tolerables == args.resolver.value.tolerables)
  {
    var resultCacher := CreateTimeoutCacher(maxCacheCount, cacheTimeout);
    var workCacher := CreateCacher(maxCacheCount);
    var resolver := NewResolver(CreateResolver(retryTimes, tolerables));
    s := new AsyncWorkStatusHub(resultCacher, workCacher, interval, concurrency, resolver);
  }
}
