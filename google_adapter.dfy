/** The Google Analytics 4 Measurement Protocol adapter. Its delivery step
    (a success without body, a failure naming Google Analytics) is
    `HttpAdapters.ClassifyGoogle`. */
module GooglePlatformAdapter {
  import opened Php
  import opened EventTypes
  import opened PlatformTypes
  import opened PixelCredentials
  import opened Events
  import opened Payloads

  const Platform: PlatformType := Google

  /** GA4 takes every event type. */
  predicate Supports(t: EventType) {
    true
  }

  /** GA4's recommended event name of each type; a subscription is sent as
      a purchase, and an unlisted type under its own value. */
  function MapEventName(t: EventType): Option<string> {
    match t
    case Purchase => Some("purchase")
    case AddToCart => Some("add_to_cart")
    case ViewItem => Some("view_item")
    case BeginCheckout => Some("begin_checkout")
    case ViewCart => Some("view_cart")
    case AddPaymentInfo => Some("add_payment_info")
    case AddToWishlist => Some("add_to_wishlist")
    case CompletedRegistration => Some("sign_up")
    case PageView => Some("page_view")
    case Search => Some("search")
    case Subscription => Some("purchase")
    case _ => Some(t.Value())
  }

  /** One element of `items`; category and brand are null when missing. */
  function Item(item: Value): Value {
    VDict(map["item_id" := ItemField(item, "item_id", VStr("")),
              "item_name" := ItemField(item, "item_name", VStr("")),
              "price" := ItemField(item, "price", VInt(0)),
              "quantity" := ItemField(item, "quantity", VInt(1)),
              "item_category" := ItemField(item, "category", VNull),
              "item_brand" := ItemField(item, "brand", VNull)])
  }

  /** The event `params` assignments, in source order. */
  function ParamFields(e: PixelEvent): seq<Entry> {
    [ When(e.value.Some?, "currency", VStr(if e.value.Some? then e.value.value.CurrencyCode() else "")),
      When(e.value.Some?, "value", VFloat(if e.value.Some? then e.value.value.amount else 0.0)),
      When(Filled(e.transactionId), "transaction_id", VStr(e.transactionId.GetOr(""))),
      When(FilledReal(e.shipping), "shipping", VFloat(e.shipping.GetOr(0.0))),
      When(Filled(e.searchTerm), "search_term", VStr(e.searchTerm.GetOr(""))),
      When(e.HasItems(), "items", MapItems(e.items, Item)),
      When(e.pageUrl.Some?, "page_location", VStr(if e.pageUrl.Some? then e.pageUrl.value.ToString() else "")) ]
  }

  function Params(e: PixelEvent): Value {
    VDict(Entries(ParamFields(e)))
  }

  /** `buildPayload`: the client and user ids and a one-event list. */
  function Payload(e: PixelEvent): Value {
    var externalId := OptStr(e.customer.externalId);
    VDict(map["client_id" := Coalesce(externalId, VStr("anonymous")),
              "user_id" := externalId,
              "events" := VList([VDict(map["name" := OptStr(MapEventName(e.eventType)),
                                           "params" := Params(e)])])])
  }

  const CollectUrl := "https://www.google-analytics.com/mp/collect"

  /** `getEndpointUrl`: the collect endpoint with the measurement id and the
      API secret as query parameters; the credentials have to be Google's. */
  function Endpoint(c: Credentials): string
    requires c.GoogleCredentials?
  {
    CollectUrl + "?measurement_id=" + c.measurementId + "&api_secret=" + c.apiSecret
  }

  /** `getHeaders`, which GA4's `sendEvent` posts without: the JSON content
      type alone; the secret travels in the query string, so no header
      carries the credentials' apiSecret. */
  function Headers(c: Credentials): (h: map<string, string>)
    ensures h.Keys == {"Content-Type"}
    ensures c.GoogleCredentials? && c.apiSecret != "application/json" ==> c.apiSecret !in h.Values
  {
    var h := map["Content-Type" := "application/json"];
    assert forall v :: v in h.Values ==> v == "application/json";
    h
  }

  /** Every type has a name: its own value except for a registration and a
      subscription, which GA4 sees as a sign-up and a purchase; the
      subscription therefore shares its name with the purchase. */
  lemma NamesTotal(t: EventType)
    ensures Supports(t) && MapEventName(t).Some?
    ensures t != CompletedRegistration && t != Subscription ==> MapEventName(t) == Some(t.Value())
    ensures MapEventName(Subscription) == MapEventName(Purchase)
    ensures MapEventName(CustomizeProduct) == Some("customize_product")
  {
  }

  /** The endpoint is the collect URL followed by the two query parameters,
      each of which can be read back from it. */
  lemma EndpointQuery(c: Credentials)
    requires c.GoogleCredentials?
    ensures var url := Endpoint(c);
      var m := |CollectUrl| + |"?measurement_id="|;
      StartsWith(url, CollectUrl + "?measurement_id=") &&
      url[m..m + |c.measurementId|] == c.measurementId &&
      url[m + |c.measurementId|..m + |c.measurementId| + |"&api_secret="|] == "&api_secret=" &&
      url[m + |c.measurementId| + |"&api_secret="|..] == c.apiSecret
  {
    var url := Endpoint(c);
    assert url == (CollectUrl + "?measurement_id=") + c.measurementId + "&api_secret=" + c.apiSecret;
  }

  /** The client id is the customer's external id, or 'anonymous' when it
      has none; the user id is the external id, null when it has none; the
      one event carries the GA4 name and the params. */
  lemma PayloadIdentity(e: PixelEvent)
    ensures var p := Payload(e).entries;
      p.Keys == {"client_id", "user_id", "events"} &&
      p["client_id"] == VStr(e.customer.externalId.GetOr("anonymous")) &&
      p["user_id"] == OptStr(e.customer.externalId) &&
      p["events"] == VList([VDict(map["name" := VStr(MapEventName(e.eventType).value), "params" := Params(e)])])
  {
  }

  /** Each parameter is present exactly when the event has it; shipping
      only when it is non-zero. */
  lemma ParamFieldsOf(e: PixelEvent)
    ensures var p := Params(e).entries;
      ("currency" in p <==> e.value.Some?) && ("value" in p <==> e.value.Some?) &&
      (e.value.Some? ==> p["value"] == VFloat(e.value.value.amount) &&
                         p["currency"] == VStr(e.value.value.CurrencyCode())) &&
      ("transaction_id" in p <==> Filled(e.transactionId)) &&
      ("shipping" in p <==> FilledReal(e.shipping)) &&
      (FilledReal(e.shipping) ==> p["shipping"] == VFloat(e.shipping.value)) &&
      ("search_term" in p <==> Filled(e.searchTerm)) &&
      ("items" in p <==> e.HasItems()) &&
      (e.HasItems() ==> p["items"] == MapItems(e.items, Item)) &&
      ("page_location" in p <==> e.pageUrl.Some?)
  {
    var fs := ParamFields(e);
    var ks := seq(|fs|, i requires 0 <= i < |fs| => fs[i].key);
    assert ks == ["currency", "value", "transaction_id", "shipping", "search_term", "items", "page_location"];
    EntryAt(fs, 0);
    EntryAt(fs, 1);
    EntryAt(fs, 2);
    EntryAt(fs, 3);
    EntryAt(fs, 4);
    EntryAt(fs, 5);
    EntryAt(fs, 6);
  }

  /** Missing item fields get their defaults. */
  lemma ItemDefaults(item: Value)
    ensures var i := Item(item).entries;
      (!ArrayKeyExists(item, "quantity") ==> i["quantity"] == VInt(1)) &&
      (!ArrayKeyExists(item, "price") ==> i["price"] == VInt(0)) &&
      (!ArrayKeyExists(item, "category") ==> i["item_category"] == VNull) &&
      (!ArrayKeyExists(item, "item_name") ==> i["item_name"] == VStr(""))
  {
  }
}
