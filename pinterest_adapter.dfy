/** The Pinterest Conversions API adapter. The environment of the
    credentials picks the API host, and the sandbox marks each request as a
    test. */
module PinterestPlatformAdapter {
  import opened Php
  import opened Foreign
  import opened EventTypes
  import opened PlatformTypes
  import opened PinterestEnvironments
  import opened PixelCredentials
  import opened Customers
  import opened Events
  import opened Payloads

  const Platform: PlatformType := Pinterest

  /** Every type but a product customisation. */
  predicate Supports(t: EventType) {
    t != CustomizeProduct
  }

  /** Pinterest's event names; a viewed item and a page view are both a
      page visit, and six types have no name. */
  function MapEventName(t: EventType): Option<string> {
    match t
    case Purchase => Some("checkout")
    case AddToCart => Some("add_to_cart")
    case ViewItem => Some("page_visit")
    case PageView => Some("page_visit")
    case Search => Some("search")
    case CompletedRegistration => Some("signup")
    case _ => None
  }

  /** `[hash('sha256', $s)]`. */
  function Hashed(hash: string -> string, s: string): Value {
    VList([VStr(hash(s))])
  }

  /** The `user_data` assignments: every identifier hashed into a one-element
      list except the IP address and user agent. */
  function UserFields(c: CustomerData, hash: string -> string): seq<Entry> {
    [ When(c.email.Some?, "em", VList([VStr(if c.email.Some? then c.email.value.Hash(hash) else "")])),
      When(c.phone.Some?, "ph", VList([VStr(if c.phone.Some? then c.phone.value.Hash(hash) else "")])),
      When(Filled(c.gender), "ge", Hashed(hash, Lower(c.gender.GetOr("")))),
      When(c.dateOfBirth.Some?, "db", Hashed(hash, if c.dateOfBirth.Some? then Ymd(c.dateOfBirth.value) else "")),
      When(Filled(c.firstName), "fn", Hashed(hash, Lower(c.firstName.GetOr("")))),
      When(Filled(c.lastName), "ln", Hashed(hash, Lower(c.lastName.GetOr("")))),
      When(Filled(c.city), "ct", Hashed(hash, Lower(c.city.GetOr("")))),
      When(Filled(c.state), "st", Hashed(hash, Lower(c.state.GetOr("")))),
      When(Filled(c.countryCode), "country", Hashed(hash, Lower(c.countryCode.GetOr("")))),
      When(Filled(c.zipCode), "zp", Hashed(hash, c.zipCode.GetOr(""))),
      When(Filled(c.externalId), "external_id", Hashed(hash, c.externalId.GetOr(""))),
      When(c.ipAddress.Some?, "client_ip_address", VStr(if c.ipAddress.Some? then c.ipAddress.value.value else "")),
      When(c.userAgent.Some?, "client_user_agent", VStr(if c.userAgent.Some? then c.userAgent.value.ToString() else "")) ]
  }

  const UserKeys := ["em", "ph", "ge", "db", "fn", "ln", "ct", "st", "country", "zp", "external_id",
                     "client_ip_address", "client_user_agent"]

  function ContentId(item: Value): Value {
    ItemField(item, "item_id", VStr(""))
  }

  /** The `custom_data` assignments; `floatStr` is PHP's `(string)` cast of
      a float. */
  function CustomFields(e: PixelEvent, floatStr: real -> string): seq<Entry> {
    [ When(e.value.Some?, "value", VStr(if e.value.Some? then floatStr(e.value.value.amount) else "")),
      When(e.value.Some?, "currency", VStr(if e.value.Some? then e.value.value.CurrencyCode() else "")),
      When(e.HasItems(), "content_ids", MapItems(e.items, ContentId)),
      When(e.HasItems(), "num_items", VInt(Count(e.items))),
      When(Filled(e.orderId), "order_id", VStr(e.orderId.GetOr(""))),
      When(Filled(e.searchTerm), "search_string", VStr(e.searchTerm.GetOr(""))) ]
  }

  function UserData(c: CustomerData, hash: string -> string): Value {
    VDict(Entries(UserFields(c, hash)))
  }

  function CustomData(e: PixelEvent, floatStr: real -> string): Value {
    VDict(Entries(CustomFields(e, floatStr)))
  }

  /** The one event of the request, given its user and custom data; the
      opt-out flag is there exactly when the custom property exists, even
      with a null value, and is that value cast to bool. */
  function EventFields(e: PixelEvent, userData: Value, customData: Value): seq<Entry> {
    [ Always("event_name", OptStr(MapEventName(e.eventType))),
      Always("event_id", VStr(e.id)),
      Always("event_time", VInt(e.occurredAt)),
      Always("action_source", VStr("web")),
      Always("user_data", userData),
      Always("custom_data", customData),
      When(e.pageUrl.Some?, "event_source_url", VStr(if e.pageUrl.Some? then e.pageUrl.value.ToString() else "")),
      When(e.HasCustomProperty("opt_out"), "opt_out", VBool(Truthy(e.GetCustomProperty("opt_out", VNull)))) ]
  }

  /** `buildPayload`: a one-event `data` list. */
  function Payload(e: PixelEvent, hash: string -> string, floatStr: real -> string): Value {
    VDict(map["data" := VList([VDict(Entries(EventFields(e, UserData(e.customer, hash), CustomData(e, floatStr))))])])
  }

  const Path := "/v5/ad_accounts/"
  const TestParam := "?test=true"

  /** `getEndpointUrl`; the credentials have to be Pinterest's. */
  function Endpoint(c: Credentials): string
    requires c.PinterestCredentials?
  {
    c.environment.BaseUrl() + Path + c.accountId + "/events" + (if c.environment == Sandbox then TestParam else "")
  }

  /** `getHeaders`: a bearer token. */
  function Headers(c: Credentials): map<string, string>
    requires c.PinterestCredentials?
  {
    map["Authorization" := "Bearer " + c.accessToken, "Content-Type" := "application/json"]
  }

  /** Supported exactly when not a customisation; a viewed item and a page
      view share 'page_visit'; the six unnamed types are exactly these. */
  lemma Names(t: EventType)
    ensures Supports(t) <==> t != CustomizeProduct
    ensures MapEventName(ViewItem) == MapEventName(PageView) == Some("page_visit")
    ensures MapEventName(t).None? <==>
      t in {Subscription, BeginCheckout, ViewCart, AddPaymentInfo, AddToWishlist, CustomizeProduct}
  {
  }

  /** The endpoint is on the environment's host, names the ad account, and
      ends in "?test=true" exactly for the sandbox. */
  lemma EndpointOf(c: Credentials)
    requires c.PinterestCredentials?
    ensures StartsWith(Endpoint(c), c.environment.BaseUrl() + Path + c.accountId + "/events")
    ensures EndsWith(Endpoint(c), TestParam) <==> c.environment == Sandbox
  {
    var core := c.environment.BaseUrl() + Path + c.accountId + "/events";
    var url := Endpoint(c);
    assert url[..|core|] == core;
    if c.environment == Production {
      assert url == core;
      assert url[|url| - 7..] == "/events";
      assert url[|url| - |TestParam|..][3..] == url[|url| - 7..];
      assert TestParam[3..] != "/events";
    } else {
      assert url[|url| - |TestParam|..] == TestParam;
    }
  }

  lemma HeadersCarryToken(c: Credentials)
    requires c.PinterestCredentials?
    ensures Headers(c)["Authorization"] == "Bearer " + c.accessToken
  {
  }

  lemma UserKeysDistinct(c: CustomerData, hash: string -> string)
    ensures DistinctKeys(UserFields(c, hash))
    ensures |UserFields(c, hash)| == |UserKeys|
    ensures forall i :: 0 <= i < |UserKeys| ==> UserFields(c, hash)[i].key == UserKeys[i]
  {
    var fs := UserFields(c, hash);
    var ks := seq(|fs|, i requires 0 <= i < |fs| => fs[i].key);
    assert ks == UserKeys;
  }

  /** Each identifier is present exactly when the customer has it; the
      personal ones are lower-cased, then hashed. */
  lemma UserDataFields(c: CustomerData, hash: string -> string)
    ensures var u := UserData(c, hash).entries;
      ("em" in u <==> c.email.Some?) && ("ph" in u <==> c.phone.Some?) &&
      ("ge" in u <==> Filled(c.gender)) &&
      (Filled(c.gender) ==> u["ge"] == VList([VStr(hash(Lower(c.gender.value)))])) &&
      ("db" in u <==> c.dateOfBirth.Some?) &&
      (c.dateOfBirth.Some? ==> u["db"] == VList([VStr(hash(Ymd(c.dateOfBirth.value)))])) &&
      ("fn" in u <==> Filled(c.firstName)) && ("ln" in u <==> Filled(c.lastName)) &&
      ("ct" in u <==> Filled(c.city)) && ("st" in u <==> Filled(c.state)) &&
      ("country" in u <==> Filled(c.countryCode)) && ("zp" in u <==> Filled(c.zipCode)) &&
      ("external_id" in u <==> Filled(c.externalId)) &&
      (Filled(c.externalId) ==> u["external_id"] == VList([VStr(hash(c.externalId.value))])) &&
      ("client_ip_address" in u <==> c.ipAddress.Some?) &&
      ("client_user_agent" in u <==> c.userAgent.Some?)
  {
    var fs := UserFields(c, hash);
    UserKeysDistinct(c, hash);
    EntryAt(fs, 0);
    EntryAt(fs, 1);
    EntryAt(fs, 2);
    EntryAt(fs, 3);
    EntryAt(fs, 4);
    EntryAt(fs, 5);
    EntryAt(fs, 6);
    EntryAt(fs, 7);
    EntryAt(fs, 8);
    EntryAt(fs, 9);
    EntryAt(fs, 10);
    EntryAt(fs, 11);
    EntryAt(fs, 12);
  }

  /** The value is sent as a string; there is one content id per item and
      the item count beside them. */
  lemma CustomDataFields(e: PixelEvent, floatStr: real -> string)
    ensures var d := CustomData(e, floatStr).entries;
      ("value" in d <==> e.value.Some?) &&
      (e.value.Some? ==> d["value"] == VStr(floatStr(e.value.value.amount))) &&
      ("content_ids" in d <==> e.HasItems()) && ("num_items" in d <==> e.HasItems()) &&
      (e.HasItems() ==> Count(d["content_ids"]) == Count(e.items) &&
                        d["num_items"] == VInt(Count(e.items))) &&
      ("order_id" in d <==> Filled(e.orderId))
  {
    var fs := CustomFields(e, floatStr);
    var ks := seq(|fs|, i requires 0 <= i < |fs| => fs[i].key);
    assert ks == ["value", "currency", "content_ids", "num_items", "order_id", "search_string"];
    EntryAt(fs, 0);
    EntryAt(fs, 2);
    EntryAt(fs, 3);
    EntryAt(fs, 4);
  }

  /** The opt-out flag is present exactly when the custom property exists,
      and is its truthiness. */
  lemma OptOut(e: PixelEvent, userData: Value, customData: Value)
    ensures var ev := Entries(EventFields(e, userData, customData));
      ("opt_out" in ev <==> e.HasCustomProperty("opt_out")) &&
      (e.HasCustomProperty("opt_out") ==> ev["opt_out"] == VBool(Truthy(e.GetCustomProperty("opt_out", VNull)))) &&
      "action_source" in ev && ev["action_source"] == VStr("web") &&
      ("event_source_url" in ev <==> e.pageUrl.Some?)
  {
    var fs := EventFields(e, userData, customData);
    var ks := seq(|fs|, i requires 0 <= i < |fs| => fs[i].key);
    assert ks == ["event_name", "event_id", "event_time", "action_source", "user_data", "custom_data",
                  "event_source_url", "opt_out"];
    EntryAt(fs, 3);
    EntryAt(fs, 6);
    EntryAt(fs, 7);
  }
}
