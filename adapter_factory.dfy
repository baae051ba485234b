/** The factory that builds a platform's adapter: the class registered for
    the platform, wrapped by every added decorator in the order added, and
    the service provider's choice of decorators. */
module AdapterFactory {
  import opened Php
  import opened Foreign
  import opened PlatformTypes
  import opened Responses
  import opened HttpAdapters
  import opened AdapterClasses
  import opened Decorators
  import opened Config

  /** A decorator class the factory can be given. */
  datatype DecoratorClass = LoggingClass | RateLimitingClass | CircuitBreakerClass | RetryingClass
  {
    /** The decorator the container builds from the class: only the inner
        adapter is passed, so every setting is its constructor default. */
    function Instance(): (d: Decorator)
      ensures d.RateLimiting? ==> d.maxRequestsPerMinute == 100
      ensures d.CircuitBreaker? ==> d.failureThreshold == 5 && d.timeoutSeconds == 60
      ensures d.Retrying? ==> d.maxAttempts == 3
      ensures (d.Logging? <==> LoggingClass?) && (d.RateLimiting? <==> RateLimitingClass?) &&
              (d.CircuitBreaker? <==> CircuitBreakerClass?) && (d.Retrying? <==> RetryingClass?)
    {
      match this
      case LoggingClass => Logging
      case RateLimitingClass => RateLimiting(100)
      case CircuitBreakerClass => CircuitBreaker(5, 60)
      case RetryingClass => Retrying(3)
    }
  }

  function Instances(ds: seq<DecoratorClass>): (r: seq<Decorator>)
    ensures |r| == |ds| && forall i :: 0 <= i < |ds| ==> r[i] == ds[i].Instance()
  {
    seq(|ds|, i requires 0 <= i < |ds| => ds[i].Instance())
  }

  /** `base` wrapped by `ds`, the first innermost and the last outermost. */
  function Chain(ds: seq<Decorator>, base: Adapter): Adapter
    decreases |ds|
  {
    if |ds| == 0 then base else Wrapped(ds[|ds| - 1], Chain(ds[..|ds| - 1], base))
  }

  /** The decorators of a chain, innermost first. */
  function Layers(a: Adapter): seq<Decorator> {
    match a
    case Base(_) => []
    case Wrapped(d, inner) => Layers(inner) + [d]
  }

  /** A chain is its base adapter under exactly the given decorators, in
      the given order from the inside out. */
  lemma {:induction false} ChainLayers(ds: seq<Decorator>, cls: AdapterClass)
    ensures Layers(Chain(ds, Base(cls))) == ds
    ensures Chain(ds, Base(cls)).BaseClass() == cls
    decreases |ds|
  {
    if |ds| > 0 {
      ChainLayers(ds[..|ds| - 1], cls);
      assert ds[..|ds| - 1] + [ds[|ds| - 1]] == ds;
    }
  }

  /** The classes registered by default, keyed by platform value. */
  const Defaults: map<string, AdapterClass> := map[
    "meta" := MetaAdapter, "google" := GoogleAdapter, "tiktok" := TikTokAdapter,
    "pinterest" := PinterestAdapter, "snapchat" := SnapchatAdapter, "brevo" := BrevoAdapter]

  /** Every platform has its own class by default, and nothing else is
      registered. */
  lemma DefaultsComplete(p: PlatformType)
    ensures p.Value() in Defaults && Defaults[p.Value()] == DefaultFor(p)
    ensures |Defaults.Keys| == 6
  {
    assert Defaults.Keys == {"meta", "google", "tiktok", "pinterest", "snapchat", "brevo"};
  }

  function NotRegistered(p: PlatformType): string {
    "No adapter registered for platform: " + p.Value()
  }

  class PlatformAdapterFactory {
    var adapters: map<string, AdapterClass>
    var decorators: seq<DecoratorClass>

    /** A new factory has the six default classes and no decorator. */
    constructor()
      ensures adapters == Defaults && decorators == []
    {
      adapters := Defaults;
      decorators := [];
    }

    /** `register` replaces the class of one platform only. */
    method Register(p: PlatformType, cls: AdapterClass)
      modifies this
      ensures adapters == old(adapters)[p.Value() := cls] && decorators == old(decorators)
    {
      adapters := adapters[p.Value() := cls];
    }

    /** `addDecorator` appends; the decorators already added stay. */
    method AddDecorator(d: DecoratorClass)
      modifies this
      ensures decorators == old(decorators) + [d] && adapters == old(adapters)
    {
      decorators := decorators + [d];
    }

    predicate Has(p: PlatformType)
      reads this
    {
      p.Value() in adapters
    }

    /** `create`: the registered class wrapped by every decorator in the
        order added, or a runtime exception for an unregistered platform. */
    method Create(p: PlatformType) returns (r: Result<Adapter>)
      ensures !Has(p) ==> r == Err(RuntimeError(NotRegistered(p)))
      ensures Has(p) ==> r == Ok(Chain(Instances(decorators), Base(adapters[p.Value()])))
    {
      if p.Value() !in adapters {
        return Err(RuntimeError(NotRegistered(p)));
      }
      var adapter := Base(adapters[p.Value()]);
      var ds := Instances(decorators);
      var i := 0;
      while i < |decorators|
        invariant 0 <= i <= |decorators|
        invariant adapter == Chain(ds[..i], Base(adapters[p.Value()]))
      {
        assert ds[..i + 1][..i] == ds[..i];
        adapter := Wrapped(decorators[i].Instance(), adapter);
        i := i + 1;
      }
      assert ds[..|decorators|] == ds;
      return Ok(adapter);
    }
  }

  /** With the default classes the chain built for a platform answers for
      that platform, and its base adapter is that platform's class. */
  lemma CreatedForPlatform(p: PlatformType, ds: seq<Decorator>)
    ensures Chain(ds, Base(Defaults[p.Value()])).PlatformType() == p
    ensures Chain(ds, Base(Defaults[p.Value()])).BaseClass() == DefaultFor(p)
  {
    DefaultsComplete(p);
    ChainLayers(ds, DefaultFor(p));
    Delegates(Chain(ds, Base(DefaultFor(p))), Decorators.EventTypes.Search);
  }

  /** The decorators the service provider adds: logging always, then rate
      limiting, the circuit breaker and retries as configured. */
  function ProviderDecorators(c: ConfigService): (ds: seq<DecoratorClass>)
    ensures |ds| >= 1 && ds[0] == LoggingClass
    ensures RetryingClass in ds <==> c.IsRetryEnabled()
    ensures RateLimitingClass in ds <==> c.IsRateLimitingEnabled()
    ensures CircuitBreakerClass in ds <==> c.IsCircuitBreakerEnabled()
  {
    [LoggingClass]
      + (if c.IsRateLimitingEnabled() then [RateLimitingClass] else [])
      + (if c.IsCircuitBreakerEnabled() then [CircuitBreakerClass] else [])
      + (if c.IsRetryEnabled() then [RetryingClass] else [])
  }

  /** The factory as the service provider builds it. */
  method ProvideFactory(c: ConfigService) returns (f: PlatformAdapterFactory)
    ensures fresh(f) && f.adapters == Defaults && f.decorators == ProviderDecorators(c)
  {
    f := new PlatformAdapterFactory();
    f.AddDecorator(LoggingClass);
    if c.IsRateLimitingEnabled() {
      f.AddDecorator(RateLimitingClass);
    }
    if c.IsCircuitBreakerEnabled() {
      f.AddDecorator(CircuitBreakerClass);
    }
    if c.IsRetryEnabled() {
      f.AddDecorator(RetryingClass);
    }
  }

  /** The chain a platform gets under the provider with every feature
      enabled: retries outermost, then the breaker, the rate limit,
      logging, and the platform's class. The configured attempt count and
      threshold play no part. */
  const FullProviderChain: seq<Decorator> :=
    [Logging, RateLimiting(100), CircuitBreaker(5, 60), Retrying(3)]

  lemma ProviderChain(c: ConfigService, cls: AdapterClass)
    requires c.IsRateLimitingEnabled() && c.IsCircuitBreakerEnabled() && c.IsRetryEnabled()
    ensures Instances(ProviderDecorators(c)) == FullProviderChain
    ensures Chain(FullProviderChain, Base(cls)) ==
      Wrapped(Retrying(3), Wrapped(CircuitBreaker(5, 60), Wrapped(RateLimiting(100), Wrapped(Logging, Base(cls)))))
  {
    assert ProviderDecorators(c) == [LoggingClass, RateLimitingClass, CircuitBreakerClass, RetryingClass];
    FullChain(cls);
  }

  lemma FullChain(cls: AdapterClass)
    ensures Chain(FullProviderChain, Base(cls)) == Wrapped(Retrying(3), Attempted(cls))
  {
    var ds := FullProviderChain;
    var b := Base(cls);
    assert ds[..3][..2][..1][..0] == [];
    assert Chain(ds[..3][..2][..1], b) == Wrapped(Logging, b);
    assert Chain(ds[..3][..2], b) == Wrapped(RateLimiting(100), Wrapped(Logging, b));
    assert Chain(ds[..3], b) == Wrapped(CircuitBreaker(5, 60), Wrapped(RateLimiting(100), Wrapped(Logging, b)));
  }

  /** The adapter one retry attempt goes through. */
  function Attempted(cls: AdapterClass): Adapter {
    Wrapped(CircuitBreaker(5, 60), Wrapped(RateLimiting(100), Wrapped(Logging, Base(cls))))
  }

  /** The logged post: the base adapter's response, one post more, and
      the cache and delays as they were. */
  lemma LoggedPost(cls: AdapterClass, net: Network, w: World)
    ensures var (r, w1) := Sent(Wrapped(Logging, Base(cls)), net, w);
      r == cls.Deliver(net.outcome(w.calls), net.now).response &&
      w1.calls == w.calls + 1 && w1.delays == w.delays && w1.cache == w.cache
  {
  }

  /** A failure through a closed breaker is counted on the breaker's key. */
  lemma BreakerCounts(threshold: int, timeout: int, inner: Adapter, net: Network, w: World,
                      r: Result<PlatformResponse>, w1: World, other: string)
    requires Sent(inner, net, w) == (r, w1)
    requires CacheGet(w.cache, FailuresKey(inner.PlatformType())) < threshold
    requires r.Ok? && r.value.IsFailure()
    requires other != FailuresKey(inner.PlatformType())
    ensures var t := Sent(Wrapped(CircuitBreaker(threshold, timeout), inner), net, w);
      var key := FailuresKey(inner.PlatformType());
      t.0 == r && t.1.calls == w1.calls && t.1.delays == w1.delays &&
      CacheGet(t.1.cache, key) == CacheGet(w1.cache, key) + 1 &&
      CacheGet(t.1.cache, other) == CacheGet(w1.cache, other)
  {
  }

  /** One attempt below both limits that fails posts once, keeps the
      failure, and raises both counters by one. */
  lemma FailedAttempt(cls: AdapterClass, net: Network, w: World)
    requires FailsAt(cls, net, w.calls)
    requires CacheGet(w.cache, FailuresKey(cls.PlatformType())) < 5
    requires CacheGet(w.cache, RateKey(cls.PlatformType())) < 100
    ensures var (r, w1) := Sent(Attempted(cls), net, w);
      r == cls.Deliver(net.outcome(w.calls), net.now).response &&
      w1.calls == w.calls + 1 && w1.delays == w.delays &&
      CacheGet(w1.cache, RateKey(cls.PlatformType())) == CacheGet(w.cache, RateKey(cls.PlatformType())) + 1 &&
      CacheGet(w1.cache, FailuresKey(cls.PlatformType())) == CacheGet(w.cache, FailuresKey(cls.PlatformType())) + 1
  {
    var p := cls.PlatformType();
    var rk, fk := RateKey(p), FailuresKey(p);
    KeysDistinct(p, p);
    var lg := Wrapped(Logging, Base(cls));
    var rl := Wrapped(RateLimiting(100), lg);
    var wr := w.(cache := w.cache[rk := CacheEntry(CacheGet(w.cache, rk) + 1, 60)]);
    assert Sent(rl, net, w) == Sent(lg, net, wr);
    LoggedPost(cls, net, wr);
    assert CacheGet(wr.cache, fk) == CacheGet(w.cache, fk);
    var (r1, w1) := Sent(rl, net, w);
    BreakerCounts(5, 60, rl, net, w, r1, w1, rk);
  }

  /** When every post fails, one event through the fully configured chain
      from a fresh state makes three posts, sleeps 100 ms then 200 ms,
      returns the last failure and leaves both counters at three, so the
      breaker stays closed. */
  lemma ProviderChainAllFail(cls: AdapterClass, net: Network)
    requires FailsAt(cls, net, 0) && FailsAt(cls, net, 1) && FailsAt(cls, net, 2)
    ensures var (r, w) := Sent(Chain(FullProviderChain, Base(cls)), net, World(map[], 0, [], []));
      r == cls.Deliver(net.outcome(2), net.now).response && r.Ok? && r.value.IsFailure() &&
      w.calls == 3 && w.delays == [100, 200] &&
      CacheGet(w.cache, RateKey(cls.PlatformType())) == 3 &&
      CacheGet(w.cache, FailuresKey(cls.PlatformType())) == 3
  {
    FullChain(cls);
    AttemptsFail(cls, net);
    RetriedAttemptsFail(cls, net, Attempted(cls));
  }

  /** The same run, on the retry loop around any attempt that fails below
      both limits. */
  lemma RetriedAttemptsFail(cls: AdapterClass, net: Network, a: Adapter)
    requires forall v: World :: BelowLimits(cls, net, v) ==> AttemptFails(cls, net, a, v)
    requires FailsAt(cls, net, 0) && FailsAt(cls, net, 1) && FailsAt(cls, net, 2)
    ensures var (r, w) := Sent(Wrapped(Retrying(3), a), net, World(map[], 0, [], []));
      r == cls.Deliver(net.outcome(2), net.now).response &&
      w.calls == 3 && w.delays == [100, 200] &&
      CacheGet(w.cache, RateKey(cls.PlatformType())) == 3 &&
      CacheGet(w.cache, FailuresKey(cls.PlatformType())) == 3
  {
    var w0 := World(map[], 0, [], []);
    assert forall i :: w0.calls <= i <= w0.calls + 3 - 1 ==> FailsAt(cls, net, i);
    FailingAttemptsFrom(cls, net, a, 1, None, w0);
    assert Backoffs(1, 2) == [100, 200] by {
      assert Backoffs(3, 2) == [];
      assert Backoffs(2, 2) == [Backoff(2)];
    }
  }

  /** Below both limits every attempt fails when its post does. */
  lemma AttemptsFail(cls: AdapterClass, net: Network)
    ensures forall v: World :: BelowLimits(cls, net, v) ==> AttemptFails(cls, net, Attempted(cls), v)
  {
    forall v: World | BelowLimits(cls, net, v)
      ensures AttemptFails(cls, net, Attempted(cls), v)
    {
      FailedAttempt(cls, net, v);
    }
  }

  /** The n-th post fails while both counters are below their limits. */
  predicate BelowLimits(cls: AdapterClass, net: Network, w: World) {
    FailsAt(cls, net, w.calls) &&
    CacheGet(w.cache, FailuresKey(cls.PlatformType())) < 5 &&
    CacheGet(w.cache, RateKey(cls.PlatformType())) < 100
  }

  /** One attempt through `a` posts once, returns the post's failure and
      raises both counters by one. */
  predicate AttemptFails(cls: AdapterClass, net: Network, a: Adapter, w: World) {
    var (r, w1) := Sent(a, net, w);
    r == cls.Deliver(net.outcome(w.calls), net.now).response && r.Ok? && r.value.IsFailure() &&
    w1.calls == w.calls + 1 && w1.delays == w.delays &&
    CacheGet(w1.cache, RateKey(cls.PlatformType())) == CacheGet(w.cache, RateKey(cls.PlatformType())) + 1 &&
    CacheGet(w1.cache, FailuresKey(cls.PlatformType())) == CacheGet(w.cache, FailuresKey(cls.PlatformType())) + 1
  }

  /** Attempts `attempt` to 3 of the retry loop around an attempt that
      fails below both limits: one post each, a sleep after each but the
      last, one more count on both counters per attempt, and the last
      failure returned. */
  lemma {:induction false} FailingAttemptsFrom(cls: AdapterClass, net: Network, a: Adapter, attempt: int,
                                               last: Option<PlatformResponse>, w: World)
    requires 1 <= attempt <= 3
    requires forall v: World :: BelowLimits(cls, net, v) ==> AttemptFails(cls, net, a, v)
    requires forall i :: w.calls <= i <= w.calls + 3 - attempt ==> FailsAt(cls, net, i)
    requires CacheGet(w.cache, FailuresKey(cls.PlatformType())) + 3 - attempt < 5
    requires CacheGet(w.cache, RateKey(cls.PlatformType())) + 3 - attempt < 100
    ensures var (r, w1) := Retry(a, 3, attempt, last, net, w);
      var k := 4 - attempt;
      r == cls.Deliver(net.outcome(w.calls + k - 1), net.now).response &&
      w1.calls == w.calls + k && w1.delays == w.delays + Backoffs(attempt, 2) &&
      CacheGet(w1.cache, RateKey(cls.PlatformType())) == CacheGet(w.cache, RateKey(cls.PlatformType())) + k &&
      CacheGet(w1.cache, FailuresKey(cls.PlatformType())) == CacheGet(w.cache, FailuresKey(cls.PlatformType())) + k
    decreases 3 - attempt
  {
    assert BelowLimits(cls, net, w);
    assert AttemptFails(cls, net, a, w);
    RetryFailedStep(a, 3, attempt, last, net, w);
    var (r, w1) := Sent(a, net, w);
    if attempt < 3 {
      var v := w1.(delays := w1.delays + [Backoff(attempt)]);
      assert forall i :: v.calls <= i <= v.calls + 3 - (attempt + 1) ==> FailsAt(cls, net, i);
      FailingAttemptsFrom(cls, net, a, attempt + 1, Some(r.value), v);
      assert Backoffs(attempt, 2) == [Backoff(attempt)] + Backoffs(attempt + 1, 2);
      assert v.delays + Backoffs(attempt + 1, 2) == w.delays + Backoffs(attempt, 2);
    } else {
      assert Backoffs(attempt, 2) == [];
    }
  }

  /** A failed attempt hands its failure, and a sleep unless it was the
      last, to the next round of the loop. */
  lemma RetryFailedStep(inner: Adapter, n: int, attempt: int, last: Option<PlatformResponse>, net: Network, w: World)
    requires 1 <= attempt <= n
    requires var r := Sent(inner, net, w).0; r.Ok? && r.value.IsFailure()
    ensures var (r, w1) := Sent(inner, net, w);
      Retry(inner, n, attempt, last, net, w) ==
        if attempt < n then Retry(inner, n, attempt + 1, Some(r.value), net, w1.(delays := w1.delays + [Backoff(attempt)]))
        else (r, w1)
  {
  }
}
