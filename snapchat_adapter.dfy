/** The Snapchat Conversions API adapter. */
module SnapchatPlatformAdapter {
  import opened Php
  import opened EventTypes
  import opened PlatformTypes
  import opened PixelCredentials
  import opened Customers
  import opened Events
  import opened Payloads

  const Platform: PlatformType := Snapchat

  /** Every type but a product customisation. */
  predicate Supports(t: EventType) {
    t != CustomizeProduct
  }

  /** Snapchat's event names; a viewed cart, added payment details and a
      customisation have none. */
  function MapEventName(t: EventType): Option<string> {
    match t
    case Purchase => Some("PURCHASE")
    case AddToCart => Some("ADD_CART")
    case ViewItem => Some("VIEW_CONTENT")
    case BeginCheckout => Some("START_CHECKOUT")
    case AddToWishlist => Some("ADD_TO_WISHLIST")
    case CompletedRegistration => Some("SIGN_UP")
    case PageView => Some("PAGE_VIEW")
    case Search => Some("SEARCH")
    case Subscription => Some("SUBSCRIBE")
    case _ => None
  }

  function Hashed(hash: string -> string, s: string): Value {
    VList([VStr(hash(s))])
  }

  /** The `userData` assignments: identifiers hashed into one-element lists,
      the IP address and user agent plain. */
  function UserFields(c: CustomerData, hash: string -> string): seq<Entry> {
    [ When(c.email.Some?, "em", VList([VStr(if c.email.Some? then c.email.value.Hash(hash) else "")])),
      When(c.phone.Some?, "ph", VList([VStr(if c.phone.Some? then c.phone.value.Hash(hash) else "")])),
      When(Filled(c.gender), "ge", Hashed(hash, Lower(c.gender.GetOr("")))),
      When(Filled(c.firstName), "fn", Hashed(hash, Lower(c.firstName.GetOr("")))),
      When(Filled(c.lastName), "ln", Hashed(hash, Lower(c.lastName.GetOr("")))),
      When(Filled(c.city), "ct", Hashed(hash, Lower(c.city.GetOr("")))),
      When(Filled(c.state), "st", Hashed(hash, Lower(c.state.GetOr("")))),
      When(Filled(c.countryCode), "country", Hashed(hash, Lower(c.countryCode.GetOr("")))),
      When(Filled(c.zipCode), "zp", Hashed(hash, c.zipCode.GetOr(""))),
      When(Filled(c.externalId), "external_id", Hashed(hash, c.externalId.GetOr(""))),
      When(c.ipAddress.Some?, "client_ip_address", VStr(if c.ipAddress.Some? then c.ipAddress.value.value else "")),
      When(c.userAgent.Some?, "client_user_agent", VStr(if c.userAgent.Some? then c.userAgent.value.ToString() else "")) ]
  }

  const UserKeys := ["em", "ph", "ge", "fn", "ln", "ct", "st", "country", "zp", "external_id",
                     "client_ip_address", "client_user_agent"]

  function ItemId(item: Value): Value {
    ItemField(item, "item_id", VStr(""))
  }

  /** The `customData` assignments; `floatStr` is PHP's `(string)` cast of
      a float, and the item count is sent as a string too. */
  function CustomFields(e: PixelEvent, floatStr: real -> string): seq<Entry> {
    [ When(e.value.Some?, "price", VStr(if e.value.Some? then floatStr(e.value.value.amount) else "")),
      When(e.value.Some?, "currency", VStr(if e.value.Some? then e.value.value.CurrencyCode() else "")),
      When(e.HasItems(), "item_ids", MapItems(e.items, ItemId)),
      When(e.HasItems(), "number_items", VStr(NatStr(Count(e.items)))),
      When(Filled(e.orderId), "transaction_id", VStr(e.orderId.GetOr(""))),
      When(Filled(e.searchTerm), "search_string", VStr(e.searchTerm.GetOr(""))) ]
  }

  /** The event, given the user and custom data arrays built above: the
      hashed email and phone, user agent and IP address are copied out of
      the user data (null when absent), and the custom data is left out
      when it is empty. */
  function EventFields(e: PixelEvent, userData: map<string, Value>, customData: map<string, Value>): seq<Entry> {
    [ Always("event_name", OptStr(MapEventName(e.eventType))),
      Always("event_conversion_type", VStr("WEB")),
      Always("event_tag", VStr("event")),
      Always("timestamp", VInt(e.occurredAt * 1000)),
      Always("hashed_email", Lookup(userData, "em")),
      Always("hashed_phone_number", Lookup(userData, "ph")),
      Always("user_agent", Lookup(userData, "client_user_agent")),
      Always("ip_address", Lookup(userData, "client_ip_address")),
      When(e.pageUrl.Some?, "page_url", VStr(if e.pageUrl.Some? then e.pageUrl.value.ToString() else "")),
      When(|customData| != 0, "custom_data", VDict(customData)) ]
  }

  function UserData(c: CustomerData, hash: string -> string): map<string, Value> {
    Entries(UserFields(c, hash))
  }

  function CustomData(e: PixelEvent, floatStr: real -> string): map<string, Value> {
    Entries(CustomFields(e, floatStr))
  }

  /** `buildPayload`: a one-event `data` list. */
  function Payload(e: PixelEvent, hash: string -> string, floatStr: real -> string): Value {
    VDict(map["data" := VList([VDict(Entries(EventFields(e, UserData(e.customer, hash), CustomData(e, floatStr))))])])
  }

  const Host := "https://tr.snapchat.com/v3/"
  const TokenParam := "/events?access_token="

  /** `getEndpointUrl`: the pixel in the path, the token in the query; the
      credentials have to be Snapchat's. */
  function Endpoint(c: Credentials): string
    requires c.SnapchatCredentials?
  {
    Host + c.pixelId + TokenParam + c.accessToken
  }

  /** `getHeaders`: the JSON content type alone; the access token travels in the URL, so no header
      carries the credentials' accessToken. */
  function Headers(c: Credentials): (h: map<string, string>)
    ensures h.Keys == {"Content-Type"}
    ensures c.SnapchatCredentials? && c.accessToken != "application/json" ==> c.accessToken !in h.Values
  {
    var h := map["Content-Type" := "application/json"];
    assert forall v :: v in h.Values ==> v == "application/json";
    h
  }

  /** Supported exactly when not a customisation; unnamed exactly for the
      three types above; an add to cart is 'ADD_CART'; no two types share a
      name. */
  lemma Names(t: EventType, u: EventType)
    ensures Supports(t) <==> t != CustomizeProduct
    ensures MapEventName(t).None? <==> t in {ViewCart, AddPaymentInfo, CustomizeProduct}
    ensures MapEventName(AddToCart) == Some("ADD_CART")
    ensures MapEventName(t).Some? && MapEventName(t) == MapEventName(u) ==> t == u
  {
  }

  /** The pixel id and the token can be read back from the endpoint. */
  lemma EndpointParts(c: Credentials)
    requires c.SnapchatCredentials?
    ensures var url := Endpoint(c);
      var n := |Host| + |c.pixelId|;
      StartsWith(url, Host) && url[|Host|..n] == c.pixelId &&
      url[n..n + |TokenParam|] == TokenParam && url[n + |TokenParam|..] == c.accessToken
  {
    var url := Endpoint(c);
    assert url == Host + c.pixelId + TokenParam + c.accessToken;
  }

  lemma UserKeysDistinct(c: CustomerData, hash: string -> string)
    ensures DistinctKeys(UserFields(c, hash))
    ensures |UserFields(c, hash)| == |UserKeys|
    ensures forall i :: 0 <= i < |UserKeys| ==> UserFields(c, hash)[i].key == UserKeys[i]
  {
    var fs := UserFields(c, hash);
    var ks := seq(|fs|, i requires 0 <= i < |fs| => fs[i].key);
    assert ks == UserKeys;
  }

  /** The event repeats the hashed email and phone, the user agent and the
      IP address of the user data, as null when the customer has none. */
  lemma EventIdentifiers(e: PixelEvent, hash: string -> string, customData: map<string, Value>)
    ensures var ev := Entries(EventFields(e, UserData(e.customer, hash), customData));
      var c := e.customer;
      "hashed_email" in ev && "hashed_phone_number" in ev && "ip_address" in ev &&
      (c.email.None? ==> ev["hashed_email"] == VNull) &&
      (c.email.Some? ==> ev["hashed_email"] == VList([VStr(c.email.value.Hash(hash))])) &&
      (c.phone.None? ==> ev["hashed_phone_number"] == VNull) &&
      (c.ipAddress.Some? ==> ev["ip_address"] == VStr(c.ipAddress.value.value)) &&
      "timestamp" in ev && ev["timestamp"] == VInt(e.occurredAt * 1000)
  {
    UserDataIdentifiers(e.customer, hash);
    EventCopiesUserData(e, UserData(e.customer, hash), customData);
  }

  /** The user data holds the hashed email and phone and the plain IP
      address, each exactly when the customer has one. */
  lemma UserDataIdentifiers(c: CustomerData, hash: string -> string)
    ensures var u := UserData(c, hash);
      (c.email.None? ==> Lookup(u, "em") == VNull) &&
      (c.email.Some? ==> Lookup(u, "em") == VList([VStr(c.email.value.Hash(hash))])) &&
      (c.phone.None? ==> Lookup(u, "ph") == VNull) &&
      (c.ipAddress.Some? ==> Lookup(u, "client_ip_address") == VStr(c.ipAddress.value.value))
  {
    var ufs := UserFields(c, hash);
    UserKeysDistinct(c, hash);
    EntryAt(ufs, 0);
    EntryAt(ufs, 1);
    EntryAt(ufs, 10);
  }

  /** The event copies its identifiers out of whatever user data it is
      given, and sends the time in milliseconds. */
  lemma EventCopiesUserData(e: PixelEvent, userData: map<string, Value>, customData: map<string, Value>)
    ensures var ev := Entries(EventFields(e, userData, customData));
      "hashed_email" in ev && ev["hashed_email"] == Lookup(userData, "em") &&
      "hashed_phone_number" in ev && ev["hashed_phone_number"] == Lookup(userData, "ph") &&
      "ip_address" in ev && ev["ip_address"] == Lookup(userData, "client_ip_address") &&
      "timestamp" in ev && ev["timestamp"] == VInt(e.occurredAt * 1000)
  {
    var fs := EventFields(e, userData, customData);
    var ks := seq(|fs|, i requires 0 <= i < |fs| => fs[i].key);
    assert ks == ["event_name", "event_conversion_type", "event_tag", "timestamp", "hashed_email",
                  "hashed_phone_number", "user_agent", "ip_address", "page_url", "custom_data"];
    EntryAt(fs, 3);
    EntryAt(fs, 4);
    EntryAt(fs, 5);
    EntryAt(fs, 7);
  }

  /** The custom data is empty exactly when the event has no value, no
      items, no order id and no search term; an empty one is left out of
      the event. */
  lemma CustomDataEmpty(e: PixelEvent, floatStr: real -> string)
    ensures |CustomData(e, floatStr)| == 0 <==>
      e.value.None? && !e.HasItems() && !Filled(e.orderId) && !Filled(e.searchTerm)
  {
    var cfs := CustomFields(e, floatStr);
    EntriesEmpty(cfs);
    assert |cfs| == 6;
    assert cfs[0].value.None? == cfs[1].value.None? == e.value.None?;
    assert cfs[2].value.None? == cfs[3].value.None? == !e.HasItems();
    assert cfs[4].value.None? == !Filled(e.orderId) && cfs[5].value.None? == !Filled(e.searchTerm);
  }

  lemma CustomDataOmitted(e: PixelEvent, userData: map<string, Value>, customData: map<string, Value>)
    ensures "custom_data" in Entries(EventFields(e, userData, customData)) <==> |customData| != 0
  {
    var fs := EventFields(e, userData, customData);
    var ks := seq(|fs|, i requires 0 <= i < |fs| => fs[i].key);
    assert ks == ["event_name", "event_conversion_type", "event_tag", "timestamp", "hashed_email",
                  "hashed_phone_number", "user_agent", "ip_address", "page_url", "custom_data"];
    EntryAt(fs, 9);
  }

  /** The item count is sent as a decimal string and the transaction id is
      the order id. */
  lemma CustomDataFields(e: PixelEvent, floatStr: real -> string)
    ensures var d := CustomData(e, floatStr);
      ("number_items" in d <==> e.HasItems()) &&
      (e.HasItems() ==> d["number_items"] == VStr(NatStr(Count(e.items)))) &&
      ("transaction_id" in d <==> Filled(e.orderId)) &&
      (Filled(e.orderId) ==> d["transaction_id"] == VStr(e.orderId.value))
  {
    var cfs := CustomFields(e, floatStr);
    var cks := seq(|cfs|, i requires 0 <= i < |cfs| => cfs[i].key);
    assert cks == ["price", "currency", "item_ids", "number_items", "transaction_id", "search_string"];
    EntryAt(cfs, 3);
    EntryAt(cfs, 4);
  }
}
