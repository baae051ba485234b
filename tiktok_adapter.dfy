/** The TikTok Events API adapter. */
module TikTokPlatformAdapter {
  import opened Php
  import opened EventTypes
  import opened PlatformTypes
  import opened PixelCredentials
  import opened Customers
  import opened Events
  import opened Payloads

  const Platform: PlatformType := TikTok

  /** Every type but a product customisation. */
  predicate Supports(t: EventType) {
    t != CustomizeProduct
  }

  /** TikTok's standard event names; a viewed cart and a customisation
      have none. */
  function MapEventName(t: EventType): Option<string> {
    match t
    case Purchase => Some("CompletePayment")
    case AddToCart => Some("AddToCart")
    case ViewItem => Some("ViewContent")
    case BeginCheckout => Some("InitiateCheckout")
    case AddToWishlist => Some("AddToWishlist")
    case AddPaymentInfo => Some("AddPaymentInfo")
    case CompletedRegistration => Some("CompleteRegistration")
    case PageView => Some("PageView")
    case Search => Some("Search")
    case Subscription => Some("Subscribe")
    case _ => None
  }

  /** The `context.user` assignments: hashed email and phone, plain IP, user
      agent and external id. */
  function UserFields(c: CustomerData, hash: string -> string): seq<Entry> {
    [ When(c.email.Some?, "email", VStr(if c.email.Some? then c.email.value.Hash(hash) else "")),
      When(c.phone.Some?, "phone_number", VStr(if c.phone.Some? then c.phone.value.Hash(hash) else "")),
      When(c.ipAddress.Some?, "ip", VStr(if c.ipAddress.Some? then c.ipAddress.value.value else "")),
      When(c.userAgent.Some?, "user_agent", VStr(if c.userAgent.Some? then c.userAgent.value.ToString() else "")),
      When(Filled(c.externalId), "external_id", VStr(c.externalId.GetOr(""))) ]
  }

  /** One element of `contents`. */
  function Content(item: Value): Value {
    VDict(map["content_id" := ItemField(item, "item_id", VStr("")),
              "content_name" := ItemField(item, "item_name", VStr("")),
              "price" := ItemField(item, "price", VInt(0)),
              "quantity" := ItemField(item, "quantity", VInt(1)),
              "content_category" := ItemField(item, "category", VStr("")),
              "brand" := ItemField(item, "brand", VStr(""))])
  }

  /** The `properties` assignments, starting from the pixel code. */
  function PropertyFields(e: PixelEvent, pixelCode: string): seq<Entry> {
    [ Always("pixel_code", VStr(pixelCode)),
      When(e.value.Some?, "value", VFloat(if e.value.Some? then e.value.value.amount else 0.0)),
      When(e.value.Some?, "currency", VStr(if e.value.Some? then e.value.value.CurrencyCode() else "")),
      When(e.HasItems(), "contents", MapItems(e.items, Content)),
      When(e.HasItems(), "content_type", VStr("product")),
      When(Filled(e.searchTerm), "query", VStr(e.searchTerm.GetOr(""))) ]
  }

  function Properties(e: PixelEvent, pixelCode: string): Value {
    VDict(Entries(PropertyFields(e, pixelCode)))
  }

  /** `buildPayload`; `isoTime` renders an instant as 'Y-m-d\TH:i:s\Z', and
      the credentials have to be TikTok's. */
  function Payload(e: PixelEvent, c: Credentials, hash: string -> string, isoTime: int -> string): Value
    requires c.TikTokCredentials?
  {
    VDict(map["pixel_code" := VStr(c.pixelCode),
              "event" := OptStr(MapEventName(e.eventType)),
              "event_id" := VStr(e.id),
              "timestamp" := VStr(isoTime(e.occurredAt)),
              "context" := VDict(map["user" := VDict(Entries(UserFields(e.customer, hash))),
                                     "page" := VDict(map["url" := VStr(if e.pageUrl.Some? then e.pageUrl.value.ToString() else "")])]),
              "properties" := Properties(e, c.pixelCode)])
  }

  const Endpoint := "https://business-api.tiktok.com/open_api/v1.3/event/track/"

  /** `getHeaders`: the access token travels in the Access-Token header. */
  function Headers(c: Credentials): map<string, string>
    requires c.TikTokCredentials?
  {
    map["Access-Token" := c.accessToken, "Content-Type" := "application/json"]
  }

  /** Supported exactly when not a customisation; named exactly when
      neither a customisation nor a viewed cart; a purchase is a
      'CompletePayment'; no two types share a name. A viewed cart is
      therefore supported yet sent with a null event name. */
  lemma Names(t: EventType, u: EventType)
    ensures Supports(t) <==> t != CustomizeProduct
    ensures MapEventName(t).None? <==> t == ViewCart || t == CustomizeProduct
    ensures MapEventName(Purchase) == Some("CompletePayment")
    ensures MapEventName(t).Some? && MapEventName(t) == MapEventName(u) ==> t == u
    ensures Supports(ViewCart) && MapEventName(ViewCart).None?
  {
  }

  lemma HeadersCarryToken(c: Credentials)
    requires c.TikTokCredentials?
    ensures Headers(c).Keys == {"Access-Token", "Content-Type"}
    ensures Headers(c)["Access-Token"] == c.accessToken
  {
  }

  /** The pixel code is sent at the top level and inside the properties;
      the page URL is '' without one; the event name is null when TikTok
      has none. */
  lemma PayloadFields(e: PixelEvent, c: Credentials, hash: string -> string, isoTime: int -> string)
    requires c.TikTokCredentials?
    ensures var p := Payload(e, c, hash, isoTime).entries;
      p["pixel_code"] == VStr(c.pixelCode) &&
      p["event"] == OptStr(MapEventName(e.eventType)) &&
      p["event_id"] == VStr(e.id) &&
      p["context"].entries["page"].entries["url"] == VStr(if e.pageUrl.Some? then e.pageUrl.value.value else "") &&
      "pixel_code" in p["properties"].entries &&
      p["properties"].entries["pixel_code"] == VStr(c.pixelCode)
  {
    PropertyFieldsOf(e, c.pixelCode);
  }

  /** The content type is 'product' exactly when there are items, and the
      value and currency are there exactly when the event has a value. */
  lemma PropertyFieldsOf(e: PixelEvent, pixelCode: string)
    ensures var p := Properties(e, pixelCode).entries;
      "pixel_code" in p && p["pixel_code"] == VStr(pixelCode) &&
      ("content_type" in p <==> e.HasItems()) && (e.HasItems() ==> p["content_type"] == VStr("product")) &&
      ("contents" in p <==> e.HasItems()) &&
      ("value" in p <==> e.value.Some?) && ("currency" in p <==> e.value.Some?) &&
      ("query" in p <==> Filled(e.searchTerm))
  {
    var fs := PropertyFields(e, pixelCode);
    var ks := seq(|fs|, i requires 0 <= i < |fs| => fs[i].key);
    assert ks == ["pixel_code", "value", "currency", "contents", "content_type", "query"];
    EntryAt(fs, 0);
    EntryAt(fs, 1);
    EntryAt(fs, 2);
    EntryAt(fs, 3);
    EntryAt(fs, 4);
    EntryAt(fs, 5);
  }

  /** `context.user` holds each identifier exactly when the customer has it. */
  lemma UserFieldsOf(c: CustomerData, hash: string -> string)
    ensures var u := Entries(UserFields(c, hash));
      ("email" in u <==> c.email.Some?) && (c.email.Some? ==> u["email"] == VStr(c.email.value.Hash(hash))) &&
      ("phone_number" in u <==> c.phone.Some?) && ("ip" in u <==> c.ipAddress.Some?) &&
      ("user_agent" in u <==> c.userAgent.Some?) && ("external_id" in u <==> Filled(c.externalId))
  {
    var fs := UserFields(c, hash);
    var ks := seq(|fs|, i requires 0 <= i < |fs| => fs[i].key);
    assert ks == ["email", "phone_number", "ip", "user_agent", "external_id"];
    EntryAt(fs, 0);
    EntryAt(fs, 1);
    EntryAt(fs, 2);
    EntryAt(fs, 3);
    EntryAt(fs, 4);
  }
}
