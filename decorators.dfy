/** The decorators that wrap a platform adapter: logging, rate limiting, a
    circuit breaker and retries with exponential backoff. Their shared
    state is the application cache, the base adapters' HTTP calls, the
    backoff sleeps and the log; `Sent` gives the meaning of one
    `sendEvent` through a chain, and `Runtime.SendEvent` performs it step
    by step on that state. */
module Decorators {
  import opened Php
  import opened Foreign
  import opened EventTypes
  import opened PlatformTypes
  import opened Responses
  import opened HttpAdapters
  import opened AdapterClasses

  /** A decorator with the settings it was built with. */
  datatype Decorator =
    | Logging
    | RateLimiting(maxRequestsPerMinute: int)
    | CircuitBreaker(failureThreshold: int, timeoutSeconds: int)
    | Retrying(maxAttempts: int)

  /** A base adapter with decorators around it, the last one outermost. */
  datatype Adapter = Base(cls: AdapterClass) | Wrapped(decorator: Decorator, inner: Adapter)
  {
    /** `getPlatformType`: every decorator delegates to the one it wraps. */
    function PlatformType(): PlatformType {
      match this
      case Base(cls) => cls.PlatformType()
      case Wrapped(_, inner) => inner.PlatformType()
    }

    predicate Supports(t: EventType) {
      match this
      case Base(cls) => cls.Supports(t)
      case Wrapped(_, inner) => inner.Supports(t)
    }

    function MapEventName(t: EventType): Option<string> {
      match this
      case Base(cls) => cls.MapEventName(t)
      case Wrapped(_, inner) => inner.MapEventName(t)
    }

    /** The adapter at the centre of the chain. */
    function BaseClass(): AdapterClass {
      match this
      case Base(cls) => cls
      case Wrapped(_, inner) => inner.BaseClass()
    }
  }

  /** A cache entry: the stored counter and the expiry it was stored with. */
  datatype CacheEntry = CacheEntry(value: int, ttl: int)

  /** What one send may change: the cache, the number of HTTP posts made so
      far, the backoff sleeps in milliseconds, and the log. */
  datatype World = World(cache: map<string, CacheEntry>, calls: nat, delays: seq<nat>, log: seq<LogLine>)

  /** The network as the base adapters see it: what the n-th post gives,
      and the clock reading stamped on responses. */
  datatype Network = Network(outcome: nat -> HttpOutcome, now: int)

  /** `(int) $cache->get($key, 0)`. */
  function CacheGet(cache: map<string, CacheEntry>, key: string): int {
    if key in cache then cache[key].value else 0
  }

  function RateKey(p: PlatformType): string {
    "rate_limit:" + p.Value()
  }

  function FailuresKey(p: PlatformType): string {
    "circuit_breaker:" + p.Value() + ":failures"
  }

  function RateMessage(p: PlatformType, max: int): string {
    "Rate limit exceeded for " + p.Value() + " (" + IntStr(max) + "/min)"
  }

  function OpenMessage(p: PlatformType): string {
    "Circuit breaker is open for " + p.Value()
  }

  const SentLine := LogLine(Debug, "Pixel Manager: Event sent successfully")
  const FailedLine := LogLine(Warning, "Pixel Manager: Event send failed")

  function Pow2(k: nat): (r: nat)
    ensures r >= 1
  {
    if k == 0 then 1 else 2 * Pow2(k - 1)
  }

  /** The sleep after a failed attempt, in milliseconds. */
  function Backoff(attempt: nat): nat
    requires attempt >= 1
  {
    100 * Pow2(attempt - 1)
  }

  /** `sendEvent` through `a`: its result (an `\Error` escapes as `Err`) and
      the new state. */
  function Sent(a: Adapter, net: Network, w: World): (Result<PlatformResponse>, World)
    decreases a, 0
  {
    match a
    case Base(cls) =>
      var d := cls.Deliver(net.outcome(w.calls), net.now);
      (d.response, w.(calls := w.calls + 1, log := w.log + d.logs))
    case Wrapped(Logging, inner) =>
      var (r, w1) := Sent(inner, net, w);
      if r.Err? then (r, w1)
      else (r, w1.(log := w1.log + [if r.value.IsSuccess() then SentLine else FailedLine]))
    case Wrapped(RateLimiting(max), inner) =>
      var key := RateKey(inner.PlatformType());
      var count := CacheGet(w.cache, key);
      if count >= max then (Ok(Failure(RateMessage(inner.PlatformType(), max), None, net.now)), w)
      else Sent(inner, net, w.(cache := w.cache[key := CacheEntry(count + 1, 60)]))
    case Wrapped(CircuitBreaker(threshold, timeout), inner) =>
      var key := FailuresKey(inner.PlatformType());
      if CacheGet(w.cache, key) >= threshold then
        (Ok(Failure(OpenMessage(inner.PlatformType()), None, net.now)), w)
      else
        var (r, w1) := Sent(inner, net, w);
        if r.Err? then (r, w1)
        else if r.value.IsSuccess() then (r, w1.(cache := w1.cache - {key}))
        else (r, w1.(cache := w1.cache[key := CacheEntry(CacheGet(w1.cache, key) + 1, timeout)]))
    case Wrapped(Retrying(n), inner) =>
      Retry(inner, n, 1, None, net, w)
  }

  /** The retry loop from attempt `attempt` on, `last` being the response
      of the attempt before; with no attempt at all nothing is returned,
      which breaks the declared return type. */
  function Retry(inner: Adapter, n: int, attempt: int, last: Option<PlatformResponse>, net: Network, w: World)
    : (Result<PlatformResponse>, World)
    requires attempt >= 1
    decreases inner, 1, if attempt <= n then n - attempt + 1 else 0
  {
    if attempt > n then
      (if last.Some? then Ok(last.value) else Err(TypeError("sendEvent")), w)
    else
      var (r, w1) := Sent(inner, net, w);
      if r.Err? || r.value.IsSuccess() then (r, w1)
      else
        Retry(inner, n, attempt + 1, Some(r.value), net,
              if attempt < n then w1.(delays := w1.delays + [Backoff(attempt)]) else w1)
  }

  /** The state the decorators share, changed in place by each send. */
  class Runtime {
    var cache: map<string, CacheEntry>
    var calls: nat
    var delays: seq<nat>
    var log: seq<LogLine>
    const net: Network

    function State(): World
      reads this
    {
      World(cache, calls, delays, log)
    }

    constructor(net: Network)
      ensures State() == World(map[], 0, [], []) && this.net == net
    {
      this.net := net;
      cache := map[];
      calls := 0;
      delays := [];
      log := [];
    }

    /** `sendEvent` on the chain `a`. */
    method SendEvent(a: Adapter) returns (r: Result<PlatformResponse>)
      modifies this
      decreases a, 0
      ensures (r, State()) == Sent(a, net, old(State()))
    {
      match a
      case Base(cls) =>
        var d := cls.Deliver(net.outcome(calls), net.now);
        calls := calls + 1;
        log := log + d.logs;
        r := d.response;
      case Wrapped(Logging, inner) =>
        r := SendEvent(inner);
        if r.Ok? {
          log := log + [if r.value.IsSuccess() then SentLine else FailedLine];
        }
      case Wrapped(RateLimiting(max), inner) =>
        var key := RateKey(inner.PlatformType());
        var count := CacheGet(cache, key);
        if count >= max {
          r := Ok(Failure(RateMessage(inner.PlatformType(), max), None, net.now));
        } else {
          cache := cache[key := CacheEntry(count + 1, 60)];
          r := SendEvent(inner);
        }
      case Wrapped(CircuitBreaker(threshold, timeout), inner) =>
        var key := FailuresKey(inner.PlatformType());
        if CacheGet(cache, key) >= threshold {
          r := Ok(Failure(OpenMessage(inner.PlatformType()), None, net.now));
        } else {
          r := SendEvent(inner);
          if r.Ok? {
            if r.value.IsSuccess() {
              cache := cache - {key};
            } else {
              cache := cache[key := CacheEntry(CacheGet(cache, key) + 1, timeout)];
            }
          }
        }
      case Wrapped(Retrying(n), inner) =>
        r := Attempts(inner, n);
    }

    /** The retry loop of `RetryingPlatformAdapter::sendEvent`. */
    method Attempts(inner: Adapter, n: int) returns (r: Result<PlatformResponse>)
      modifies this
      decreases inner, 1
      ensures (r, State()) == Retry(inner, n, 1, None, net, old(State()))
    {
      var attempt := 1;
      var last: Option<PlatformResponse> := None;
      while attempt <= n
        invariant attempt >= 1
        invariant Retry(inner, n, attempt, last, net, State()) == Retry(inner, n, 1, None, net, old(State()))
        decreases if attempt <= n then n - attempt + 1 else 0
      {
        var response := SendEvent(inner);
        if response.Err? || response.value.IsSuccess() {
          return response;
        }
        if attempt < n {
          delays := delays + [Backoff(attempt)];
        }
        last := Some(response.value);
        attempt := attempt + 1;
      }
      r := if last.Some? then Ok(last.value) else Err(TypeError("sendEvent"));
    }
  }

  // ------------------------------------------------------------ laws

  /** Every decorator delegates its platform, `supports` and
      `mapEventName` to the adapter it wraps, so a chain answers as its base
      adapter does. */
  lemma {:induction false} Delegates(a: Adapter, t: EventType)
    ensures a.PlatformType() == a.BaseClass().PlatformType()
    ensures a.Supports(t) == a.BaseClass().Supports(t)
    ensures a.MapEventName(t) == a.BaseClass().MapEventName(t)
  {
    match a
    case Base(_) =>
    case Wrapped(_, inner) => Delegates(inner, t);
  }

  /** The cache keys a chain's decorators may write. */
  function Touches(a: Adapter): set<string> {
    match a
    case Base(_) => {}
    case Wrapped(RateLimiting(_), inner) => {RateKey(inner.PlatformType())} + Touches(inner)
    case Wrapped(CircuitBreaker(_, _), inner) => {FailuresKey(inner.PlatformType())} + Touches(inner)
    case Wrapped(_, inner) => Touches(inner)
  }

  /** A send leaves every cache entry outside the chain's own keys as it
      was. */
  lemma {:induction false} Frame(a: Adapter, net: Network, w: World, k: string)
    requires k !in Touches(a)
    ensures k in Sent(a, net, w).1.cache <==> k in w.cache
    ensures k in w.cache ==> Sent(a, net, w).1.cache[k] == w.cache[k]
    decreases a, 0
  {
    match a
    case Base(_) =>
    case Wrapped(Logging, inner) => Frame(inner, net, w, k);
    case Wrapped(RateLimiting(max), inner) =>
      var key := RateKey(inner.PlatformType());
      var count := CacheGet(w.cache, key);
      if count < max {
        Frame(inner, net, w.(cache := w.cache[key := CacheEntry(count + 1, 60)]), k);
      }
    case Wrapped(CircuitBreaker(threshold, _), inner) =>
      if CacheGet(w.cache, FailuresKey(inner.PlatformType())) < threshold {
        Frame(inner, net, w, k);
      }
    case Wrapped(Retrying(n), inner) => RetryFrame(inner, n, 1, None, net, w, k);
  }

  lemma {:induction false} RetryFrame(inner: Adapter, n: int, attempt: int, last: Option<PlatformResponse>,
                                      net: Network, w: World, k: string)
    requires attempt >= 1 && k !in Touches(inner)
    ensures k in Retry(inner, n, attempt, last, net, w).1.cache <==> k in w.cache
    ensures k in w.cache ==> Retry(inner, n, attempt, last, net, w).1.cache[k] == w.cache[k]
    decreases inner, 1, if attempt <= n then n - attempt + 1 else 0
  {
    if attempt <= n {
      var (r, w1) := Sent(inner, net, w);
      Frame(inner, net, w, k);
      if !(r.Err? || r.value.IsSuccess()) {
        RetryFrame(inner, n, attempt + 1, Some(r.value), net,
                   if attempt < n then w1.(delays := w1.delays + [Backoff(attempt)]) else w1, k);
      }
    }
  }

  /** A chain only ever writes its own platform's two keys. */
  lemma {:induction false} TouchesOwnKeys(a: Adapter)
    ensures Touches(a) <= {RateKey(a.PlatformType()), FailuresKey(a.PlatformType())}
  {
    match a
    case Base(_) =>
    case Wrapped(_, inner) => TouchesOwnKeys(inner);
  }

  /** The rate and failure keys of distinct platforms are distinct, and no
      rate key is a failure key. */
  lemma KeysDistinct(p: PlatformType, q: PlatformType)
    ensures RateKey(p) == RateKey(q) ==> p == q
    ensures FailuresKey(p) == FailuresKey(q) ==> p == q
    ensures RateKey(p) != FailuresKey(q)
  {
    if RateKey(p) == RateKey(q) {
      assert RateKey(p)[11..] == p.Value() && RateKey(q)[11..] == q.Value();
      PlatformTypes.ValueInjective(p, q);
    }
    if FailuresKey(p) == FailuresKey(q) {
      var fp := FailuresKey(p);
      assert |p.Value()| == |q.Value()|;
      assert fp[16..16 + |p.Value()|] == p.Value();
      assert FailuresKey(q)[16..16 + |q.Value()|] == q.Value();
      PlatformTypes.ValueInjective(p, q);
    }
    assert RateKey(p)[0] == 'r' && FailuresKey(q)[0] == 'c';
  }

  /** Counters are per platform: sending through one platform's chain
      never changes another platform's rate or failure counter. */
  lemma OtherPlatformsUntouched(a: Adapter, net: Network, w: World, q: PlatformType)
    requires q != a.PlatformType()
    ensures var w1 := Sent(a, net, w).1;
      CacheGet(w1.cache, RateKey(q)) == CacheGet(w.cache, RateKey(q)) &&
      CacheGet(w1.cache, FailuresKey(q)) == CacheGet(w.cache, FailuresKey(q))
  {
    TouchesOwnKeys(a);
    KeysDistinct(q, a.PlatformType());
    KeysDistinct(a.PlatformType(), q);
    Frame(a, net, w, RateKey(q));
    Frame(a, net, w, FailuresKey(q));
  }

  /** Logging changes nothing but the log: the inner adapter's response is
      returned as it came, and one line is added, at debug level exactly
      for a success. */
  lemma LoggingPassesThrough(inner: Adapter, net: Network, w: World)
    ensures var (r, w1) := Sent(inner, net, w);
      var (r2, w2) := Sent(Wrapped(Logging, inner), net, w);
      r2 == r && w2.cache == w1.cache && w2.calls == w1.calls && w2.delays == w1.delays &&
      (r.Ok? ==> |w2.log| == |w1.log| + 1 && w2.log[..|w1.log|] == w1.log &&
                 (w2.log[|w1.log|].level == Debug <==> r.value.IsSuccess()))
  {
  }

  /** At or over the limit the call fails without reaching the inner
      adapter, and nothing changes. */
  lemma RateLimitRejects(max: int, inner: Adapter, net: Network, w: World)
    requires CacheGet(w.cache, RateKey(inner.PlatformType())) >= max
    ensures Sent(Wrapped(RateLimiting(max), inner), net, w) ==
      (Ok(Failure(RateMessage(inner.PlatformType(), max), None, net.now)), w)
  {
  }

  /** Under the limit the counter is raised by one with a fresh 60-second
      expiry before the inner call, whatever that call then does. */
  lemma RateLimitCounts(max: int, inner: Adapter, net: Network, w: World)
    requires RateKey(inner.PlatformType()) !in Touches(inner)
    requires CacheGet(w.cache, RateKey(inner.PlatformType())) < max
    ensures var key := RateKey(inner.PlatformType());
      var w1 := Sent(Wrapped(RateLimiting(max), inner), net, w).1;
      key in w1.cache && w1.cache[key] == CacheEntry(CacheGet(w.cache, key) + 1, 60)
  {
    var key := RateKey(inner.PlatformType());
    Frame(inner, net, w.(cache := w.cache[key := CacheEntry(CacheGet(w.cache, key) + 1, 60)]), key);
  }

  /** An open breaker fails the call without reaching the inner adapter,
      and nothing changes. */
  lemma CircuitOpenRejects(threshold: int, timeout: int, inner: Adapter, net: Network, w: World)
    requires CacheGet(w.cache, FailuresKey(inner.PlatformType())) >= threshold
    ensures Sent(Wrapped(CircuitBreaker(threshold, timeout), inner), net, w) ==
      (Ok(Failure(OpenMessage(inner.PlatformType()), None, net.now)), w)
  {
  }

  /** A closed breaker returns the inner response unchanged; a success
      clears the failure counter and a failure raises it by one with the
      breaker's timeout as expiry. */
  lemma CircuitClosedRecords(threshold: int, timeout: int, inner: Adapter, net: Network, w: World)
    requires FailuresKey(inner.PlatformType()) !in Touches(inner)
    requires CacheGet(w.cache, FailuresKey(inner.PlatformType())) < threshold
    ensures var key := FailuresKey(inner.PlatformType());
      var (r, w1) := Sent(Wrapped(CircuitBreaker(threshold, timeout), inner), net, w);
      r == Sent(inner, net, w).0 &&
      (r.Ok? && r.value.IsSuccess() ==> CacheGet(w1.cache, key) == 0) &&
      (r.Ok? && r.value.IsFailure() ==>
         key in w1.cache && w1.cache[key] == CacheEntry(CacheGet(w.cache, key) + 1, timeout))
  {
    Frame(inner, net, w, FailuresKey(inner.PlatformType()));
  }

  // ------------------------------------------------------------ retries

  /** The base adapter's delivery for the i-th post fails, or succeeds. */
  predicate FailsAt(cls: AdapterClass, net: Network, i: nat) {
    var r := cls.Deliver(net.outcome(i), net.now).response;
    r.Ok? && r.value.IsFailure()
  }

  predicate SucceedsAt(cls: AdapterClass, net: Network, i: nat) {
    var r := cls.Deliver(net.outcome(i), net.now).response;
    r.Ok? && r.value.IsSuccess()
  }

  /** The sleeps after attempts `first` to `last`. */
  function Backoffs(first: nat, last: int): seq<nat>
    requires first >= 1
    decreases last - first + 1
  {
    if last < first then [] else [Backoff(first)] + Backoffs(first + 1, last)
  }

  function Sum(s: seq<nat>): nat {
    if |s| == 0 then 0 else s[0] + Sum(s[1..])
  }

  /** The sleeps double from 100 ms: those after attempts 1 to k total
      100 * (2^k - 1) ms. */
  lemma {:induction false} BackoffsTotal(first: nat, last: nat)
    requires 1 <= first <= last + 1
    ensures |Backoffs(first, last)| == last - first + 1
    ensures Sum(Backoffs(first, last)) == 100 * (Pow2(last) - Pow2(first - 1))
    decreases last - first + 1
  {
    if first <= last {
      BackoffsTotal(first + 1, last);
      var s := Backoffs(first, last);
      assert s[1..] == Backoffs(first + 1, last);
      assert Pow2(first) == 2 * Pow2(first - 1);
    }
  }

  /** Attempts `attempt` to `n` all fail: every one posts once, a sleep
      follows each but the last, and the last failure is returned. */
  lemma {:induction false} RetryFailingRun(cls: AdapterClass, n: int, attempt: int, last: Option<PlatformResponse>,
                                           net: Network, w: World)
    requires 1 <= attempt <= n
    requires forall i :: w.calls <= i < w.calls + (n - attempt + 1) ==> FailsAt(cls, net, i)
    ensures var (r, w1) := Retry(Base(cls), n, attempt, last, net, w);
      w1.calls == w.calls + (n - attempt + 1) &&
      w1.delays == w.delays + Backoffs(attempt, n - 1) &&
      r == cls.Deliver(net.outcome(w1.calls - 1), net.now).response
    decreases n - attempt
  {
    var (r, w1) := Sent(Base(cls), net, w);
    assert FailsAt(cls, net, w.calls);
    if attempt == n {
      assert Backoffs(attempt, n - 1) == [];
      assert w.delays + [] == w.delays;
    } else {
      var w2 := w1.(delays := w1.delays + [Backoff(attempt)]);
      RetryFailingRun(cls, n, attempt + 1, Some(r.value), net, w2);
      assert w.delays + Backoffs(attempt, n - 1) == w2.delays + Backoffs(attempt + 1, n - 1);
    }
  }

  /** Attempts `attempt` to `k - 1` fail and attempt `k` succeeds: the
      success is returned after k - attempt + 1 posts, with a sleep after
      each failure. */
  lemma {:induction false} RetrySucceedingRun(cls: AdapterClass, n: int, attempt: int, k: int,
                                              last: Option<PlatformResponse>, net: Network, w: World)
    requires 1 <= attempt <= k <= n
    requires forall i :: w.calls <= i < w.calls + (k - attempt) ==> FailsAt(cls, net, i)
    requires SucceedsAt(cls, net, w.calls + (k - attempt))
    ensures var (r, w1) := Retry(Base(cls), n, attempt, last, net, w);
      w1.calls == w.calls + (k - attempt) + 1 &&
      w1.delays == w.delays + Backoffs(attempt, k - 1) &&
      r == cls.Deliver(net.outcome(w1.calls - 1), net.now).response && r.Ok? && r.value.IsSuccess()
    decreases k - attempt
  {
    var (r, w1) := Sent(Base(cls), net, w);
    if attempt == k {
      assert Backoffs(attempt, k - 1) == [];
      assert w.delays + [] == w.delays;
    } else {
      assert FailsAt(cls, net, w.calls);
      var w2 := w1.(delays := w1.delays + [Backoff(attempt)]);
      RetrySucceedingRun(cls, n, attempt + 1, k, Some(r.value), net, w2);
      assert w.delays + Backoffs(attempt, k - 1) == w2.delays + Backoffs(attempt + 1, k - 1);
    }
  }

  /** With every attempt failing, `maxAttempts` posts are made and the last
      failure is returned, after sleeps of 100, 200, ... ms totalling
      100 * (2^(n-1) - 1) ms. */
  lemma RetryExhausts(n: int, cls: AdapterClass, net: Network, w: World)
    requires n >= 1
    requires forall i :: w.calls <= i < w.calls + n ==> FailsAt(cls, net, i)
    ensures var (r, w1) := Sent(Wrapped(Retrying(n), Base(cls)), net, w);
      r.Ok? && r.value.IsFailure() &&
      r == cls.Deliver(net.outcome(w.calls + n - 1), net.now).response &&
      w1.calls == w.calls + n &&
      w1.delays == w.delays + Backoffs(1, n - 1) &&
      Sum(Backoffs(1, n - 1)) == 100 * (Pow2(n - 1) - 1)
  {
    assert Sent(Wrapped(Retrying(n), Base(cls)), net, w) == Retry(Base(cls), n, 1, None, net, w);
    RetryFailingRun(cls, n, 1, None, net, w);
    var last := w.calls + n - 1;
    assert FailsAt(cls, net, last);
    assert Retry(Base(cls), n, 1, None, net, w).0 == cls.Deliver(net.outcome(last), net.now).response;
    BackoffsTotal(1, n - 1);
  }

  /** The first success ends the retries: when attempt k is the first to
      succeed, exactly k posts are made and k - 1 sleeps taken. */
  lemma RetryStopsAtSuccess(n: int, k: int, cls: AdapterClass, net: Network, w: World)
    requires 1 <= k <= n
    requires forall i :: w.calls <= i < w.calls + (k - 1) ==> FailsAt(cls, net, i)
    requires SucceedsAt(cls, net, w.calls + (k - 1))
    ensures var (r, w1) := Sent(Wrapped(Retrying(n), Base(cls)), net, w);
      r.Ok? && r.value.IsSuccess() && w1.calls == w.calls + k &&
      w1.delays == w.delays + Backoffs(1, k - 1) && |Backoffs(1, k - 1)| == k - 1
  {
    RetrySucceedingRun(cls, n, 1, k, None, net, w);
    BackoffsTotal(1, k - 1);
  }

  /** With no attempt allowed nothing is sent and the missing response
      surfaces as a type error. */
  lemma RetryNoAttempts(n: int, inner: Adapter, net: Network, w: World)
    requires n <= 0
    ensures Sent(Wrapped(Retrying(n), inner), net, w) == (Err(TypeError("sendEvent")), w)
  {
  }

  // ---------------------------------------------- repeated sends

  /** The state after `k` sends through `a`. */
  function Repeat(a: Adapter, net: Network, w: World, k: nat): World
    decreases k
  {
    if k == 0 then w else Sent(a, net, Repeat(a, net, w, k - 1)).1
  }

  function Min(a: int, b: int): int {
    if a <= b then a else b
  }

  /** Within one window (no expiry in between), of k sends through a rate
      limit of `max` only the first `max` reach the platform. */
  lemma {:induction false} RateWindow(max: int, cls: AdapterClass, net: Network, w: World, k: nat)
    requires max >= 0 && RateKey(cls.PlatformType()) !in w.cache
    ensures var w1 := Repeat(Wrapped(RateLimiting(max), Base(cls)), net, w, k);
      w1.calls == w.calls + Min(k, max) && CacheGet(w1.cache, RateKey(cls.PlatformType())) == Min(k, max)
  {
    if k > 0 {
      RateWindow(max, cls, net, w, k - 1);
    }
  }

  /** Every post of the base adapter fails. */
  ghost predicate AlwaysFails(cls: AdapterClass, net: Network) {
    forall i :: FailsAt(cls, net, i)
  }

  /** From a cleared counter, k failing sends (k up to the threshold) each
      reach the platform and leave the counter at k. */
  lemma {:induction false} CircuitCountsFailures(threshold: int, timeout: int, cls: AdapterClass, net: Network,
                                                 w: World, k: nat)
    requires AlwaysFails(cls, net) && FailuresKey(cls.PlatformType()) !in w.cache && k <= threshold
    ensures var w1 := Repeat(Wrapped(CircuitBreaker(threshold, timeout), Base(cls)), net, w, k);
      w1.calls == w.calls + k && CacheGet(w1.cache, FailuresKey(cls.PlatformType())) == k
  {
    var a := Wrapped(CircuitBreaker(threshold, timeout), Base(cls));
    var key := FailuresKey(cls.PlatformType());
    if k > 0 {
      CircuitCountsFailures(threshold, timeout, cls, net, w, k - 1);
      var w0 := Repeat(a, net, w, k - 1);
      assert FailsAt(cls, net, w0.calls);
      assert CacheGet(w0.cache, key) < threshold;
      var (r, w1) := Sent(Base(cls), net, w0);
      assert r.Ok? && !r.value.IsSuccess();
      assert w1.cache == w0.cache;
      assert Repeat(a, net, w, k) == w1.(cache := w1.cache[key := CacheEntry(CacheGet(w1.cache, key) + 1, timeout)]);
    }
  }

  /** `threshold` consecutive failures open the breaker: the next send
      fails at once, without a post, and changes nothing. */
  lemma CircuitOpensAfterFailures(threshold: int, timeout: int, cls: AdapterClass, net: Network, w: World)
    requires threshold >= 0
    requires AlwaysFails(cls, net) && FailuresKey(cls.PlatformType()) !in w.cache
    ensures var a := Wrapped(CircuitBreaker(threshold, timeout), Base(cls));
      var w1 := Repeat(a, net, w, threshold);
      w1.calls == w.calls + threshold &&
      Sent(a, net, w1) == (Ok(Failure(OpenMessage(cls.PlatformType()), None, net.now)), w1)
  {
    CircuitCountsFailures(threshold, timeout, cls, net, w, threshold);
  }
}
