/** The legacy event listener: on a pixel event it reads the event type,
    finds the destinations the application has settings for among those
    mapped to the type, gives the event an id, logs it, and queues one
    platform job per destination. The file has no strict-types declaration,
    so scalars passed to `string` parameters are converted. */
module LegacyListener {
  import opened Php
  import opened Foreign
  import opened PlatformTypes
  import opened LaravelConfig

  const MissingTypeMessage := "Pixel Manager: Event type not provided"
  const NoApplicationMessage := "Pixel Manager: Application not found"
  const LogFailedMessage := "Pixel Manager: Failed to log event"

  /** What the listener does outside itself. */
  datatype Effect =
    | Logged(line: LogLine)
      /** `CustomerEvent::create`: the event's log record. */
    | Saved(eventId: Value, eventName: Value, destinations: seq<Value>, data: Record)
      /** `dispatch($job)->onQueue($queue)` for the platform's job class. */
    | Queued(job: PlatformType, data: Record, appData: Value, queue: string)

  /** A value's string form where PHP converts it to a string; `cast` is
      PHP's conversion of a value that is not a string. */
  function StringForm(v: Value, cast: Value -> string): string {
    if v.VStr? then v.s else cast(v)
  }

  /** A value passed to a `string` parameter in coercive mode: scalars are
      converted, null, arrays and objects are refused with a TypeError. */
  function Coerced(v: Value, cast: Value -> string): (r: Result<string>)
    ensures v.VStr? ==> r == Ok(v.s)
    ensures r.Err? <==> (v.VNull? || v.VList? || v.VDict? || v.VEnum?)
  {
    if v.VStr? then Ok(v.s)
    else if v.VInt? || v.VFloat? || v.VBool? then Ok(cast(v))
    else Err(TypeError("string"))
  }

  // ------------------------------------------------------- destinations

  /** `explode('_', $key)[0]`: the key up to its first underscore. */
  function Prefix(key: string): string {
    Explode(key, '_')[0]
  }

  lemma PrefixIsHead(key: string)
    ensures '_' !in Prefix(key) && StartsWith(key, Prefix(key))
    ensures '_' !in key ==> Prefix(key) == key
    ensures '_' in key ==> key[|Prefix(key)|] == '_'
  {
    match IndexOf(key, '_')
    case None =>
    case Some(i) =>
  }

  /** The prefixes of the keys whose value is not null. */
  function Prefixes(appData: Record): set<string> {
    set k | k in appData && appData[k] != VNull :: Prefix(k)
  }

  /** `array_values(array_intersect($allowed, $prefixes))`: the allowed
      entries whose string form is a prefix, in their order, repeats kept. */
  function Intersect(allowed: seq<Value>, prefixes: set<string>, cast: Value -> string): seq<Value>
    decreases |allowed|
  {
    if |allowed| == 0 then []
    else
      var n := |allowed| - 1;
      Intersect(allowed[..n], prefixes, cast) +
        (if StringForm(allowed[n], cast) in prefixes then [allowed[n]] else [])
  }

  /** `setDestination($appData, $allowed)`: both parameters are `array`. */
  function Destinations(appData: Value, allowed: Value, cast: Value -> string): Result<seq<Value>> {
    if !appData.IsArray() || !allowed.IsArray() then Err(TypeError("array"))
    else Ok(Intersect(Elements(allowed), Prefixes(Entries(appData)), cast))
  }

  /** An entry is a destination exactly when it is allowed and its string
      form is the prefix of a key with a non-null value. */
  lemma {:induction false} IntersectMembers(allowed: seq<Value>, prefixes: set<string>, cast: Value -> string)
    ensures forall v :: v in Intersect(allowed, prefixes, cast) <==> v in allowed && StringForm(v, cast) in prefixes
    decreases |allowed|
  {
    if |allowed| > 0 {
      var n := |allowed| - 1;
      IntersectMembers(allowed[..n], prefixes, cast);
      assert allowed == allowed[..n] + [allowed[n]];
    }
  }

  /** The destinations keep the allowed order: splitting the allowed list
      splits the destinations the same way. */
  lemma {:induction false} IntersectAppend(a: seq<Value>, b: seq<Value>, prefixes: set<string>, cast: Value -> string)
    ensures Intersect(a + b, prefixes, cast) == Intersect(a, prefixes, cast) + Intersect(b, prefixes, cast)
    decreases |b|
  {
    if |b| > 0 {
      var n := |b| - 1;
      IntersectAppend(a, b[..n], prefixes, cast);
      assert (a + b)[..|a + b| - 1] == a + b[..n];
      assert (a + b)[|a + b| - 1] == b[n];
    } else {
      assert a + b == a;
    }
  }

  /** A key holding null enables nothing by itself, an empty string does. */
  lemma NullEnablesNothing(appData: Record, k: string)
    requires k in appData && appData[k] == VNull
    requires forall j :: j in appData && j != k ==> Prefix(j) != Prefix(k)
    ensures Prefix(k) !in Prefixes(appData)
  {
  }

  lemma EmptyStringEnables(appData: Record, k: string)
    requires k in appData && appData[k] == VStr("")
    ensures Prefix(k) in Prefixes(appData)
  {
  }

  // -------------------------------------------------------------- jobs

  /** The `match` of `dispatchJob`: the job class of a destination name. */
  function JobFor(name: string): Option<PlatformType> {
    match name
    case "meta" => Some(Meta)
    case "brevo" => Some(Brevo)
    case "google" => Some(Google)
    case "tiktok" => Some(TikTok)
    case "pinterest" => Some(Pinterest)
    case "snapchat" => Some(Snapchat)
    case _ => None
  }

  /** Exactly the six platform names have a job, each its own platform's. */
  lemma JobForIsPlatform(name: string)
    ensures JobFor(name) == TryFromString(name)
  {
    if TryFromString(name).Some? {
      var p := TryFromString(name).value;
      assert name == p.Value();
    }
  }

  /** `dispatchJob($destination, $data, $appData, $queue)`. */
  function DispatchOne(dest: Value, data: Record, appData: Value, queue: Value, cast: Value -> string): (Result<()>, seq<Effect>) {
    match Coerced(dest, cast)
    case Err(e) => (Err(e), [])
    case Ok(name) =>
      match Coerced(queue, cast)
      case Err(e) => (Err(e), [])
      case Ok(q) =>
        match JobFor(name)
        case Some(p) => (Ok(()), [Queued(p, data, appData, q)])
        case None => (Ok(()), [])
  }

  /** The `foreach` over the destinations, stopping at the first error. */
  function Dispatches(ds: seq<Value>, data: Record, appData: Value, queue: Value, cast: Value -> string): (Result<()>, seq<Effect>)
    decreases |ds|
  {
    if |ds| == 0 then (Ok(()), [])
    else
      var n := |ds| - 1;
      var before := Dispatches(ds[..n], data, appData, queue, cast);
      if before.0.Err? then before
      else
        var one := DispatchOne(ds[n], data, appData, queue, cast);
        (one.0, before.1 + one.1)
  }

  /** Every queued job belongs to a destination whose name is that
      platform's; an unknown name queues nothing. */
  lemma {:induction false} QueuedFromDestinations(ds: seq<Value>, data: Record, appData: Value, queue: Value,
                                                  cast: Value -> string)
    ensures forall e :: e in Dispatches(ds, data, appData, queue, cast).1 ==>
      e.Queued? && e.data == data && e.appData == appData &&
      exists i :: 0 <= i < |ds| && Coerced(ds[i], cast) == Ok(e.job.Value())
    decreases |ds|
  {
    if |ds| > 0 {
      var n := |ds| - 1;
      QueuedFromDestinations(ds[..n], data, appData, queue, cast);
      forall e | e in DispatchOne(ds[n], data, appData, queue, cast).1
        ensures e.Queued? && exists i :: 0 <= i < |ds| && Coerced(ds[i], cast) == Ok(e.job.Value())
      {
        var name := Coerced(ds[n], cast).value;
        JobForIsPlatform(name);
        assert Coerced(ds[n], cast) == Ok(e.job.Value());
      }
      assert forall i :: 0 <= i < n ==> ds[..n][i] == ds[i];
    }
  }

  /** With a usable queue name, every destination that is a platform name
      gets its job, in destination order. */
  lemma {:induction false} EachPlatformQueued(ds: seq<Value>, ps: seq<PlatformType>, data: Record, appData: Value,
                                              q: string, cast: Value -> string)
    requires |ps| == |ds| && forall i :: 0 <= i < |ds| ==> ds[i] == VStr(ps[i].Value())
    ensures var h := Dispatches(ds, data, appData, VStr(q), cast);
      h.0 == Ok(()) && |h.1| == |ds| &&
      forall i :: 0 <= i < |ds| ==> h.1[i] == Queued(ps[i], data, appData, q)
    decreases |ds|
  {
    if |ds| > 0 {
      var n := |ds| - 1;
      EachPlatformQueued(ds[..n], ps[..n], data, appData, q, cast);
      DispatchPlatform(ps[n], data, appData, q, cast);
      var before := Dispatches(ds[..n], data, appData, VStr(q), cast);
      assert Dispatches(ds, data, appData, VStr(q), cast) ==
        (Ok(()), before.1 + [Queued(ps[n], data, appData, q)]);
    }
  }

  /** One destination naming a platform queues that platform's job. */
  lemma DispatchPlatform(p: PlatformType, data: Record, appData: Value, q: string, cast: Value -> string)
    ensures DispatchOne(VStr(p.Value()), data, appData, VStr(q), cast) == (Ok(()), [Queued(p, data, appData, q)])
  {
    JobForIsPlatform(p.Value());
    TryFromValue(p);
  }

  // ------------------------------------------------------------ handle

  function EventTypeOf(data: Record): Value {
    Field(Lookup(data, "data"), "event_type")
  }

  /** An event with a type has its `data` array. */
  lemma TypedEventHasData(data: Record)
    requires Truthy(EventTypeOf(data))
    ensures Lookup(data, "data").VDict?
  {
  }

  /** `$data['data']['event_id'] = (string) new ObjectId()` unless set. */
  function WithEventId(data: Record, freshId: string): Record
    requires Lookup(data, "data").VDict?
  {
    var inner := Lookup(data, "data").entries;
    if IsSet(inner, "event_id") then data
    else data["data" := VDict(inner["event_id" := VStr(freshId)])]
  }

  /** An id is made only for an event without one; nothing else changes. */
  lemma EventIdOnlyWhenMissing(data: Record, freshId: string)
    requires Lookup(data, "data").VDict?
    ensures var inner := Lookup(data, "data").entries;
      var out := WithEventId(data, freshId);
      out.Keys == data.Keys && (forall k :: k in data && k != "data" ==> out[k] == data[k]) &&
      out["data"].VDict? && IsSet(out["data"].entries, "event_id") &&
      (IsSet(inner, "event_id") ==> out == data) &&
      (!IsSet(inner, "event_id") ==>
        out["data"].entries == inner["event_id" := VStr(freshId)])
  {
  }

  /** `logEvent`: the log record, or the logged failure when the insert
      throws. */
  function LogEffect(ds: seq<Value>, data: Record, storeFails: bool): Effect {
    var inner := Lookup(data, "data");
    if storeFails then Logged(LogLine(ErrorLevel, LogFailedMessage))
    else Saved(Field(inner, "event_id"), Field(inner, "event_type"), ds, data)
  }

  /** What `handle` does, given the application the query finds (its
      `data` attribute), the new id, and whether the log insert throws. */
  function Handled(data: Record, items: Record, app: Option<Value>, cast: Value -> string,
                   freshId: string, storeFails: bool): (Result<()>, seq<Effect>)
  {
    var t := EventTypeOf(data);
    if !Truthy(t) then (Ok(()), [Logged(LogLine(Warning, MissingTypeMessage))])
    else
      var allowed := Setting(items, "event_mappings." + StringForm(t, cast), VList([]));
      if app.None? then (Ok(()), [Logged(LogLine(Info, NoApplicationMessage))])
      else
        TypedEventHasData(data);
        Routed(data, Coalesce(app.value, VList([])), allowed, Truthy(Setting(items, "logging", VBool(true))),
               Setting(items, "queue", VStr("default")), cast, freshId, storeFails)
  }

  /** The part of `handle` after the application is found: destinations,
      id, log record and jobs. */
  function Routed(data: Record, appData: Value, allowed: Value, logging: bool, queue: Value, cast: Value -> string,
                  freshId: string, storeFails: bool): (Result<()>, seq<Effect>)
    requires Lookup(data, "data").VDict?
  {
    match Destinations(appData, allowed, cast)
    case Err(e) => (Err(e), [])
    case Ok(ds) => Delivered(ds, WithEventId(data, freshId), appData, logging, queue, cast, storeFails)
  }

  /** The log record, then the jobs. */
  function Delivered(ds: seq<Value>, d: Record, appData: Value, logging: bool, queue: Value, cast: Value -> string,
                     storeFails: bool): (Result<()>, seq<Effect>)
  {
    var logged := if logging then [LogEffect(ds, d, storeFails)] else [];
    var jobs := Dispatches(ds, d, appData, queue, cast);
    (jobs.0, logged + jobs.1)
  }

  /** The jobs among the effects. */
  function Jobs(es: seq<Effect>): seq<Effect> {
    if |es| == 0 then [] else (if es[0].Queued? then [es[0]] else []) + Jobs(es[1..])
  }

  /** Without an event type, or without the application, nothing is
      queued, saved or thrown. */
  lemma NothingWithoutTypeOrApp(data: Record, items: Record, app: Option<Value>, cast: Value -> string,
                                freshId: string, storeFails: bool)
    requires !Truthy(EventTypeOf(data)) || app.None?
    ensures var h := Handled(data, items, app, cast, freshId, storeFails);
      h.0 == Ok(()) && |h.1| == 1 && h.1[0].Logged? &&
      h.1[0].line.level == (if !Truthy(EventTypeOf(data)) then Warning else Info)
  {
  }

  /** A failing log insert is swallowed: the outcome and the queued jobs
      are those of a successful one. */
  lemma LogFailureSwallowed(data: Record, items: Record, app: Option<Value>, cast: Value -> string, freshId: string)
    ensures Handled(data, items, app, cast, freshId, true).0 == Handled(data, items, app, cast, freshId, false).0
    ensures Jobs(Handled(data, items, app, cast, freshId, true).1) == Jobs(Handled(data, items, app, cast, freshId, false).1)
  {
    var t := EventTypeOf(data);
    if Truthy(t) && app.Some? {
      var appData := Coalesce(app.value, VList([]));
      var allowed := Setting(items, "event_mappings." + StringForm(t, cast), VList([]));
      if Destinations(appData, allowed, cast).Ok? {
        var ds := Destinations(appData, allowed, cast).value;
        var d := WithEventId(data, freshId);
        var jobs := Dispatches(ds, d, appData, Setting(items, "queue", VStr("default")), cast);
        JobsAppend([LogEffect(ds, d, true)], jobs.1);
        JobsAppend([LogEffect(ds, d, false)], jobs.1);
      }
    }
  }

  lemma {:induction false} JobsAppend(a: seq<Effect>, b: seq<Effect>)
    ensures Jobs(a + b) == Jobs(a) + Jobs(b)
    decreases |a|
  {
    if |a| > 0 {
      JobsAppend(a[1..], b);
      assert (a + b)[1..] == a[1..] + b;
    } else {
      assert a + b == b;
    }
  }

  // ------------------------------------------------------------ the class

  class DistributePixelEvent {
    /** Everything the listener has done, in order. */
    var trace: seq<Effect>

    constructor()
      ensures trace == []
    {
      trace := [];
    }

    /** `setDestination`: the `foreach` over the application's entries
        collects the prefixes; the intersection keeps the allowed order. */
    method SetDestination(appData: Value, allowed: Value, cast: Value -> string) returns (r: Result<seq<Value>>)
      ensures r == Destinations(appData, allowed, cast)
    {
      if !appData.IsArray() || !allowed.IsArray() {
        return Err(TypeError("array"));
      }
      var prefixes := CollectPrefixes(Entries(appData));
      r := Ok(Intersect(Elements(allowed), prefixes, cast));
    }

    /** The `foreach`, in whatever order the entries come. */
    static method CollectPrefixes(entries: Record) returns (prefixes: set<string>)
      ensures prefixes == Prefixes(entries)
    {
      prefixes := {};
      var todo := entries.Keys;
      while todo != {}
        invariant todo <= entries.Keys
        invariant prefixes == Seen(entries, todo)
        decreases |todo|
      {
        var k :| k in todo;
        SeenStep(entries, todo, k);
        if entries[k] != VNull {
          prefixes := prefixes + {Prefix(k)};
        }
        todo := todo - {k};
      }
      assert Seen(entries, {}) == Prefixes(entries);
    }

    /** `handle`. */
    method Handle(data: Record, items: Record, app: Option<Value>, cast: Value -> string,
                  freshId: string, storeFails: bool) returns (r: Result<()>)
      modifies this
      ensures var h := Handled(data, items, app, cast, freshId, storeFails);
        r == h.0 && trace == old(trace) + h.1
    {
      var eventType := EventTypeOf(data);
      if !Truthy(eventType) {
        trace := trace + [Logged(LogLine(Warning, MissingTypeMessage))];
        return Ok(());
      }
      var allowed := Setting(items, "event_mappings." + StringForm(eventType, cast), VList([]));
      if app.None? {
        trace := trace + [Logged(LogLine(Info, NoApplicationMessage))];
        return Ok(());
      }
      TypedEventHasData(data);
      r := Route(data, Coalesce(app.value, VList([])), allowed, Truthy(Setting(items, "logging", VBool(true))),
                 Setting(items, "queue", VStr("default")), cast, freshId, storeFails);
    }

    method Route(data: Record, appData: Value, allowed: Value, logging: bool, queue: Value, cast: Value -> string,
                 freshId: string, storeFails: bool) returns (r: Result<()>)
      requires Lookup(data, "data").VDict?
      modifies this
      ensures var h := Routed(data, appData, allowed, logging, queue, cast, freshId, storeFails);
        r == h.0 && trace == old(trace) + h.1
    {
      var destinations := SetDestination(appData, allowed, cast);
      if destinations.Err? {
        return Err(destinations.error);
      }
      r := Deliver(destinations.value, WithEventId(data, freshId), appData, logging, queue, cast, storeFails);
    }

    /** The log record, then the jobs. */
    method Deliver(ds: seq<Value>, d: Record, appData: Value, logging: bool, queue: Value, cast: Value -> string,
                   storeFails: bool) returns (r: Result<()>)
      modifies this
      ensures var h := Delivered(ds, d, appData, logging, queue, cast, storeFails);
        r == h.0 && trace == old(trace) + h.1
    {
      if logging {
        trace := trace + [LogEffect(ds, d, storeFails)];
      }
      r := DispatchAll(ds, d, appData, queue, cast);
    }

    /** The `foreach` over the destinations. */
    method DispatchAll(ds: seq<Value>, d: Record, appData: Value, queue: Value, cast: Value -> string)
      returns (r: Result<()>)
      modifies this
      ensures var h := Dispatches(ds, d, appData, queue, cast);
        r == h.0 && trace == old(trace) + h.1
    {
      var i := 0;
      while i < |ds|
        invariant 0 <= i <= |ds|
        invariant Dispatches(ds[..i], d, appData, queue, cast).0 == Ok(())
        invariant trace == old(trace) + Dispatches(ds[..i], d, appData, queue, cast).1
      {
        DispatchesStep(ds, i, d, appData, queue, cast);
        var one := DispatchOne(ds[i], d, appData, queue, cast);
        trace := trace + one.1;
        if one.0.Err? {
          DispatchesStop(ds, i + 1, d, appData, queue, cast);
          return one.0;
        }
        i := i + 1;
      }
      assert ds[..|ds|] == ds;
      r := Ok(());
    }
  }

  /** The prefixes of the entries visited so far. */
  ghost function Seen(entries: Record, todo: set<string>): set<string> {
    set k | k in entries && k !in todo && entries[k] != VNull :: Prefix(k)
  }

  lemma SeenStep(entries: Record, todo: set<string>, k: string)
    requires k in todo && k in entries
    ensures Seen(entries, todo - {k}) ==
      Seen(entries, todo) + (if entries[k] != VNull then {Prefix(k)} else {})
  {
  }

  /** One more destination after an error-free prefix. */
  lemma DispatchesStep(ds: seq<Value>, i: nat, data: Record, appData: Value, queue: Value, cast: Value -> string)
    requires i < |ds| && Dispatches(ds[..i], data, appData, queue, cast).0 == Ok(())
    ensures var one := DispatchOne(ds[i], data, appData, queue, cast);
      Dispatches(ds[..i + 1], data, appData, queue, cast) ==
        (one.0, Dispatches(ds[..i], data, appData, queue, cast).1 + one.1)
  {
    assert ds[..i + 1][..i] == ds[..i];
  }

  /** Once a dispatch fails, the rest of the destinations add nothing. */
  lemma {:induction false} DispatchesStop(ds: seq<Value>, n: nat, data: Record, appData: Value, queue: Value,
                                          cast: Value -> string)
    requires n <= |ds| && Dispatches(ds[..n], data, appData, queue, cast).0.Err?
    ensures Dispatches(ds, data, appData, queue, cast) == Dispatches(ds[..n], data, appData, queue, cast)
    decreases |ds| - n
  {
    if n < |ds| {
      var m := |ds| - 1;
      assert ds[..m][..n] == ds[..n];
      DispatchesStop(ds[..m], n, data, appData, queue, cast);
    } else {
      assert ds[..n] == ds;
    }
  }
}
