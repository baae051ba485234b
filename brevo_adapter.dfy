/** The Brevo events API adapter. */
module BrevoPlatformAdapter {
  import opened Php
  import opened EventTypes
  import opened PlatformTypes
  import opened PixelCredentials
  import opened Customers
  import opened Events
  import opened Payloads

  const Platform: PlatformType := Brevo

  /** Brevo takes every event type. */
  predicate Supports(t: EventType) {
    true
  }

  /** Brevo uses the pixel manager's own names. */
  function MapEventName(t: EventType): Option<string> {
    Some(t.Value())
  }

  /** The contact `identifiers`: at most the email and the external id. */
  function IdentifierFields(c: CustomerData): seq<Entry> {
    [ When(c.email.Some?, "email_id", VStr(if c.email.Some? then c.email.value.ToString() else "")),
      When(Filled(c.externalId), "ext_id", VStr(c.externalId.GetOr(""))) ]
  }

  /** The `contact_properties`, named as Brevo's contact attributes. */
  function ContactFields(c: CustomerData): seq<Entry> {
    [ When(Filled(c.firstName), "FIRSTNAME", VStr(c.firstName.GetOr(""))),
      When(Filled(c.lastName), "LASTNAME", VStr(c.lastName.GetOr(""))),
      When(c.phone.Some?, "SMS", VStr(if c.phone.Some? then c.phone.value.ToString() else "")),
      When(Filled(c.city), "CITY", VStr(c.city.GetOr(""))),
      When(Filled(c.state), "STATE", VStr(c.state.GetOr(""))),
      When(Filled(c.countryCode), "COUNTRY", VStr(c.countryCode.GetOr(""))),
      When(Filled(c.zipCode), "ZIP_CODE", VStr(c.zipCode.GetOr(""))) ]
  }

  function Item(item: Value): Value {
    VDict(map["product_id" := ItemField(item, "item_id", VStr("")),
              "title" := ItemField(item, "item_name", VStr("")),
              "price" := ItemField(item, "price", VInt(0)),
              "quantity" := ItemField(item, "quantity", VInt(1)),
              "category" := ItemField(item, "category", VStr("")),
              "brand" := ItemField(item, "brand", VStr(""))])
  }

  /** The `event_properties`. */
  function EventPropertyFields(e: PixelEvent): seq<Entry> {
    [ When(e.value.Some?, "value", VFloat(if e.value.Some? then e.value.value.amount else 0.0)),
      When(e.value.Some?, "currency", VStr(if e.value.Some? then e.value.value.CurrencyCode() else "")),
      When(Filled(e.orderId), "order_id", VStr(e.orderId.GetOr(""))),
      When(e.HasItems(), "items", MapItems(e.items, Item)),
      When(e.pageUrl.Some?, "page_url", VStr(if e.pageUrl.Some? then e.pageUrl.value.ToString() else "")) ]
  }

  function Identifiers(c: CustomerData): map<string, Value> {
    Entries(IdentifierFields(c))
  }

  /** `buildPayload`. */
  function Payload(e: PixelEvent): Value {
    VDict(map["event" := OptStr(MapEventName(e.eventType)),
              "identifiers" := VDict(Identifiers(e.customer)),
              "contact_properties" := VDict(Entries(ContactFields(e.customer))),
              "event_properties" := VDict(Entries(EventPropertyFields(e)))])
  }

  const Endpoint := "https://api.brevo.com/v3/events"

  /** `getHeaders`: the API key travels in the api-key header; the
      credentials have to be Brevo's. */
  function Headers(c: Credentials): map<string, string>
    requires c.BrevoCredentials?
  {
    map["api-key" := c.apiKey, "Content-Type" := "application/json"]
  }

  /** Every type is supported and sent under its own value, which names it
      uniquely. */
  lemma Names(t: EventType, u: EventType)
    ensures Supports(t) && MapEventName(t) == Some(t.Value())
    ensures MapEventName(t) == MapEventName(u) ==> t == u
  {
    if MapEventName(t) == MapEventName(u) {
      EventTypes.ValueInjective(t, u);
    }
  }

  lemma HeadersCarryKey(c: Credentials)
    requires c.BrevoCredentials?
    ensures Headers(c).Keys == {"api-key", "Content-Type"} && Headers(c)["api-key"] == c.apiKey
  {
  }

  /** The payload has exactly the event name and the three property groups. */
  lemma PayloadKeys(e: PixelEvent)
    ensures Payload(e).entries.Keys == {"event", "identifiers", "contact_properties", "event_properties"}
    ensures Payload(e).entries["event"] == VStr(e.eventType.Value())
  {
  }

  /** The email is an identifier exactly when the customer has one, the
      external id exactly when it is filled, and nothing else is. */
  lemma IdentifiersOf(c: CustomerData)
    ensures var ids := Identifiers(c);
      ("email_id" in ids <==> c.email.Some?) &&
      (c.email.Some? ==> ids["email_id"] == VStr(c.email.value.value)) &&
      ("ext_id" in ids <==> Filled(c.externalId)) &&
      (Filled(c.externalId) ==> ids["ext_id"] == VStr(c.externalId.value)) &&
      ids.Keys <= {"email_id", "ext_id"}
  {
    var fs := IdentifierFields(c);
    EntriesLookup(fs);
    EntryAt(fs, 0);
    EntryAt(fs, 1);
  }

  /** Contact attributes and event properties appear exactly when filled. */
  lemma PropertiesOf(e: PixelEvent)
    ensures var cp := Entries(ContactFields(e.customer));
      ("FIRSTNAME" in cp <==> Filled(e.customer.firstName)) &&
      ("SMS" in cp <==> e.customer.phone.Some?) &&
      ("ZIP_CODE" in cp <==> Filled(e.customer.zipCode))
    ensures var ep := Entries(EventPropertyFields(e));
      ("value" in ep <==> e.value.Some?) && ("order_id" in ep <==> Filled(e.orderId)) &&
      ("items" in ep <==> e.HasItems()) && ("page_url" in ep <==> e.pageUrl.Some?)
  {
    var cfs := ContactFields(e.customer);
    var cks := seq(|cfs|, i requires 0 <= i < |cfs| => cfs[i].key);
    assert cks == ["FIRSTNAME", "LASTNAME", "SMS", "CITY", "STATE", "COUNTRY", "ZIP_CODE"];
    EntryAt(cfs, 0);
    EntryAt(cfs, 2);
    EntryAt(cfs, 6);
    var efs := EventPropertyFields(e);
    var eks := seq(|efs|, i requires 0 <= i < |efs| => efs[i].key);
    assert eks == ["value", "currency", "order_id", "items", "page_url"];
    EntryAt(efs, 0);
    EntryAt(efs, 2);
    EntryAt(efs, 3);
    EntryAt(efs, 4);
  }
}
