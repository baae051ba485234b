/** Fans an event out to its platforms: looks up the application's
    credentials, selects the platforms, writes the audit log entry and
    pushes one queue job per platform. */
module Distribution {
  import opened Php
  import opened Foreign
  import opened PlatformTypes
  import opened PixelCredentials
  import opened MoneyValues
  import opened Customers
  import opened Events
  import opened Entities
  import opened Config
  import opened Selection

  /** A queued `SendPixelEventJob`. */
  datatype Job = Job(eventData: Record, platformType: string, credentials: Record, appId: int)

  /** What the pipeline leaves behind, in order: application log lines, the
      event-log repository's audit entries, and queue pushes. */
  datatype Effect =
    | Logged(level: Level, message: string)
    | Audited(event: PixelEvent, platforms: seq<PlatformType>)
    | Pushed(queue: string, job: Job)

  /** The log, the event-log repository and the queue, shared by the
      services that write to them. */
  class Outbox {
    var trace: seq<Effect>

    constructor ()
      ensures trace == []
    {
      trace := [];
    }

    method Emit(e: Effect)
      modifies this
      ensures trace == old(trace) + [e]
    {
      trace := trace + [e];
    }
  }

  // ------------------------------------------------------- serialisation

  /** `serializeCustomer`: the phone as its full number and, again, its
      country code; the birth date as Y-m-d. */
  function SerializeCustomer(c: CustomerData): Record {
    map["email" := if c.email.Some? then VStr(c.email.value.ToString()) else VNull,
        "phone" := if c.phone.Some? then VStr(c.phone.value.ToString()) else VNull,
        "phone_code" := if c.phone.Some? then VStr(c.phone.value.countryCode) else VNull,
        "ip_address" := if c.ipAddress.Some? then VStr(c.ipAddress.value.value) else VNull,
        "user_agent" := if c.userAgent.Some? then VStr(c.userAgent.value.ToString()) else VNull,
        "external_id" := OptStr(c.externalId), "first_name" := OptStr(c.firstName),
        "last_name" := OptStr(c.lastName), "gender" := OptStr(c.gender),
        "date_of_birth" := if c.dateOfBirth.Some? then VStr(IsoDate(c.dateOfBirth.value)) else VNull,
        "city" := OptStr(c.city), "state" := OptStr(c.state),
        "country_code" := OptStr(c.countryCode), "zip_code" := OptStr(c.zipCode),
        "fbc" := OptStr(c.fbc), "fbp" := OptStr(c.fbp), "custom" := c.customProperties]
  }

  /** `serializeEvent`: the same fields as the event, flattened. */
  function SerializeEvent(e: PixelEvent): Record {
    map["event_id" := VStr(e.id), "event_type" := VStr(e.eventType.Value()),
        "transaction_id" := OptStr(e.transactionId), "order_id" := OptStr(e.orderId),
        "value" := if e.value.Some? then VFloat(e.value.value.amount) else VNull,
        "currency" := if e.value.Some? then VStr(e.value.value.CurrencyCode()) else VNull,
        "shipping" := if e.shipping.Some? then VFloat(e.shipping.value) else VNull,
        "search_term" := OptStr(e.searchTerm),
        "page_url" := if e.pageUrl.Some? then VStr(e.pageUrl.value.ToString()) else VNull,
        "items" := e.items, "custom_properties" := e.customProperties,
        "customer" := VDict(SerializeCustomer(e.customer))]
  }

  /** The job payload carries the event id and type; without a value the
      amount and currency are null. */
  lemma SerializedEventFields(e: PixelEvent)
    ensures var m := SerializeEvent(e);
      "event_id" in m && m["event_id"] == VStr(e.id) &&
      "event_type" in m && m["event_type"] == VStr(e.eventType.Value()) &&
      "value" in m && "currency" in m &&
      (e.value.None? ==> m["value"] == VNull && m["currency"] == VNull) &&
      (e.value.Some? ==> m["value"] == VFloat(e.value.value.amount) &&
                         m["currency"] == VStr(e.value.value.currency.Value()))
  {
  }

  /** The phone's country code appears twice in the customer payload: inside
      `phone` and on its own under `phone_code`. */
  lemma SerializedPhone(c: CustomerData)
    requires c.phone.Some?
    ensures var m := SerializeCustomer(c);
      "phone" in m && "phone_code" in m &&
      m["phone"] == VStr(c.phone.value.countryCode + c.phone.value.number) &&
      m["phone_code"] == VStr(c.phone.value.countryCode)
  {
  }

  /** An array built from (name, value) pairs, a later pair winning. */
  function PropertiesArray(props: seq<(string, Value)>): (r: Record)
    ensures r.Keys == set i | 0 <= i < |props| :: props[i].0
  {
    if |props| == 0 then map[]
    else
      var last := props[|props| - 1];
      var init := PropertiesArray(props[..|props| - 1]);
      assert forall i :: 0 <= i < |props| - 1 ==> props[..|props| - 1][i] == props[i];
      init[last.0 := last.1]
  }

  /** `serializeCredentials`: each public property under its bare name. */
  method SerializeCredentials(c: Credentials) returns (data: Record)
    ensures data == PropertiesArray(c.Properties())
  {
    var props := c.Properties();
    data := map[];
    for i := 0 to |props|
      invariant data == PropertiesArray(props[..i])
    {
      assert props[..i + 1][..i] == props[..i];
      data := data[props[i].0 := props[i].1];
    }
    assert props[..|props|] == props;
  }

  /** The credentials payload is keyed by property names such as `pixelId`,
      not by the `meta_pixel_id` keys the records are read from. */
  lemma CredentialsPayloadKeys(c: Credentials)
    ensures PropertiesArray(c.Properties()).Keys ==
      set i | 0 <= i < |PropertyNames(c.PlatformType())| :: PropertyNames(c.PlatformType())[i]
  {
    var props := c.Properties();
    var names := PropertyNames(c.PlatformType());
    assert forall i :: 0 <= i < |props| ==> props[i].0 == names[i];
  }

  // ------------------------------------------------------------- distribute

  /** The jobs of the dispatch loop: one per platform whose credentials are
      present and valid, in selection order. */
  function Jobs(ps: seq<PlatformType>, m: map<string, Credentials>, e: PixelEvent, appId: int,
                queue: string): seq<Effect>
  {
    if |ps| == 0 then []
    else
      var p := ps[|ps| - 1];
      Jobs(ps[..|ps| - 1], m, e, appId, queue) +
        (if Usable(m, p) then [PushFor(p, m[p.Value()], e, appId, queue)] else [])
  }

  /** The push of one platform's job. */
  function PushFor(p: PlatformType, c: Credentials, e: PixelEvent, appId: int, queue: string): (r: Effect)
    ensures r.Pushed? && r.queue == queue && r.job.platformType == p.Value() && r.job.appId == appId
  {
    Pushed(queue, Job(SerializeEvent(e), p.Value(), PropertiesArray(c.Properties()), appId))
  }

  /** What `distribute` leaves behind and whether it throws, given the
      credentials the repository finds (their key order and entries). */
  function Distributed(config: ConfigService, e: PixelEvent, appId: int,
                       found: Option<(seq<string>, map<string, Credentials>)>): (Result<()>, seq<Effect>)
    requires found.Some? ==> forall k :: k in found.value.0 ==> k in found.value.1
  {
    if found.None? then (Ok(()), [Logged(Warning, "Pixel Manager: No credentials found for app")])
    else
      match Selected(config, e.eventType, found.value.0, found.value.1)
      case Err(err) => (Err(err), [])
      case Ok(platforms) => Dispatched(config, e, appId, platforms, found.value.1)
  }

  /** The part of `distribute` after the selection. */
  function Dispatched(config: ConfigService, e: PixelEvent, appId: int, platforms: seq<PlatformType>,
                      m: map<string, Credentials>): (Result<()>, seq<Effect>)
  {
    if |platforms| == 0 then (Ok(()), [Logged(Info, "Pixel Manager: No platforms selected for event")])
    else
      var audit := if config.IsLoggingEnabled() then [Audited(e, platforms)] else [];
      match config.GetQueue()
      case Err(err) => (Err(err), audit)
      case Ok(queue) => (Ok(()), audit + Jobs(platforms, m, e, appId, queue))
  }

  class EventDistributor {
    const config: ConfigService
    const outbox: Outbox

    constructor (config: ConfigService, outbox: Outbox)
      ensures this.config == config && this.outbox == outbox
    {
      this.config := config;
      this.outbox := outbox;
    }

    /** `distribute`; `found` is what `findByApplicationId($appId)` returns. */
    method Distribute(e: PixelEvent, appId: int, found: ApplicationCredentials?) returns (r: Result<()>)
      requires found != null ==> found.Valid()
      modifies outbox
      ensures var d := Distributed(config, e, appId,
                                   if found == null then None else Some((found.keys, found.credentials)));
        r == d.0 && outbox.trace == old(outbox.trace) + d.1
    {
      if found == null {
        outbox.Emit(Logged(Warning, "Pixel Manager: No credentials found for app"));
        return Ok(());
      }
      var selected := SelectPlatforms(config, e, found);
      if selected.Err? {
        return Err(selected.error);
      }
      r := DispatchSelected(e, appId, selected.value, found);
    }

    /** `distribute` once the platforms are selected. */
    method DispatchSelected(e: PixelEvent, appId: int, platforms: seq<PlatformType>,
                            found: ApplicationCredentials) returns (r: Result<()>)
      modifies outbox
      ensures var d := Dispatched(config, e, appId, platforms, found.credentials);
        r == d.0 && outbox.trace == old(outbox.trace) + d.1
    {
      if |platforms| == 0 {
        outbox.Emit(Logged(Info, "Pixel Manager: No platforms selected for event"));
        return Ok(());
      }
      if config.IsLoggingEnabled() {
        outbox.Emit(Audited(e, platforms));
      }
      ghost var audit := if config.IsLoggingEnabled() then [Audited(e, platforms)] else [];
      assert outbox.trace == old(outbox.trace) + audit;
      var queueName := config.GetQueue();
      if queueName.Err? {
        return Err(queueName.error);
      }
      Dispatch(platforms, found, e, appId, queueName.value);
      assert outbox.trace == old(outbox.trace) + (audit + Jobs(platforms, found.credentials, e, appId, queueName.value));
      return Ok(());
    }

    /** The dispatch loop of `distribute`. */
    method Dispatch(platforms: seq<PlatformType>, credentials: ApplicationCredentials, e: PixelEvent,
                    appId: int, queue: string)
      modifies outbox
      ensures outbox.trace == old(outbox.trace) + Jobs(platforms, credentials.credentials, e, appId, queue)
    {
      ghost var before := outbox.trace;
      for i := 0 to |platforms|
        invariant outbox.trace == before + Jobs(platforms[..i], credentials.credentials, e, appId, queue)
      {
        var platform := platforms[i];
        assert platforms[..i + 1][..i] == platforms[..i];
        var platformCreds := credentials.GetCredentialsFor(platform);
        if platformCreds.Some? && platformCreds.value.IsValid() {
          outbox.Emit(PushFor(platform, platformCreds.value, e, appId, queue));
        }
      }
      assert platforms[..|platforms|] == platforms;
    }
  }

  // ------------------------------------------------------------ properties

  /** Every selected platform gets exactly one job, in selection order, on
      the configured queue, carrying its own value and the app id. */
  lemma {:induction false} OneJobPerPlatform(ps: seq<PlatformType>, m: map<string, Credentials>,
                                             e: PixelEvent, appId: int, queue: string)
    requires forall i :: 0 <= i < |ps| ==> ps[i].Value() in m && m[ps[i].Value()].IsValid()
    ensures |Jobs(ps, m, e, appId, queue)| == |ps|
    ensures forall i :: 0 <= i < |ps| ==>
      Jobs(ps, m, e, appId, queue)[i] == PushFor(ps[i], m[ps[i].Value()], e, appId, queue)
  {
    if |ps| > 0 {
      var n := |ps| - 1;
      var init := ps[..n];
      assert forall i :: 0 <= i < |init| ==> init[i] == ps[i];
      OneJobPerPlatform(init, m, e, appId, queue);
      var p := ps[n];
      assert Usable(m, p);
      var js, front := Jobs(ps, m, e, appId, queue), Jobs(init, m, e, appId, queue);
      assert js == front + [PushFor(p, m[p.Value()], e, appId, queue)];
      forall i | 0 <= i < |ps|
        ensures js[i] == PushFor(ps[i], m[ps[i].Value()], e, appId, queue)
      {
        if i < n {
          assert js[i] == front[i];
        }
      }
    }
  }

  /** Only pushes come out of the dispatch loop. */
  lemma {:induction false} JobsArePushes(ps: seq<PlatformType>, m: map<string, Credentials>,
                                         e: PixelEvent, appId: int, queue: string)
    ensures forall x :: x in Jobs(ps, m, e, appId, queue) ==> x.Pushed? && x.job.appId == appId && x.queue == queue
  {
    if |ps| > 0 {
      JobsArePushes(ps[..|ps| - 1], m, e, appId, queue);
    }
  }

  /** Without credentials, or with nothing selected, there is no audit entry
      and no job. */
  lemma NothingToSend(config: ConfigService, e: PixelEvent, appId: int,
                      found: Option<(seq<string>, map<string, Credentials>)>)
    requires found.Some? ==> forall k :: k in found.value.0 ==> k in found.value.1
    requires found.None? || Selected(config, e.eventType, found.value.0, found.value.1) == Ok([])
    ensures Distributed(config, e, appId, found).0 == Ok(())
    ensures forall x :: x in Distributed(config, e, appId, found).1 ==> x.Logged?
  {
  }

  /** With platforms selected, the audit entry, written once with the whole
      selection exactly when logging is on, precedes the pushes, and there
      is one push per selected platform. */
  lemma AuditThenPushes(config: ConfigService, e: PixelEvent, appId: int,
                        keys: seq<string>, m: map<string, Credentials>)
    requires forall k :: k in keys ==> k in m
    requires Selected(config, e.eventType, keys, m).Ok?
    requires |Selected(config, e.eventType, keys, m).value| > 0
    requires config.GetQueue().Ok?
    ensures var ps := Selected(config, e.eventType, keys, m).value;
      var d := Distributed(config, e, appId, Some((keys, m)));
      d.0 == Ok(()) &&
      d.1 == (if config.IsLoggingEnabled() then [Audited(e, ps)] else []) +
             Jobs(ps, m, e, appId, config.GetQueue().value) &&
      |Jobs(ps, m, e, appId, config.GetQueue().value)| == |ps|
  {
    var ps := Selected(config, e.eventType, keys, m).value;
    forall i | 0 <= i < |ps| ensures Usable(m, ps[i]) {
      FilterMembers(config.GetEventMappings(e.eventType).value, m, ps[i]);
    }
    OneJobPerPlatform(ps, m, e, appId, config.GetQueue().value);
    assert Distributed(config, e, appId, Some((keys, m))) == Dispatched(config, e, appId, ps, m);
  }
}
