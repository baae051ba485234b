/** The Meta Conversions API adapter: which event types it takes, their
    Meta names, and the request it posts. */
module MetaPlatformAdapter {
  import opened Php
  import opened Foreign
  import opened EventTypes
  import opened PlatformTypes
  import opened PixelCredentials
  import opened Customers
  import opened Events
  import opened Payloads

  const Platform: PlatformType := Meta

  /** Meta takes every event type. */
  predicate Supports(t: EventType) {
    true
  }

  /** Meta's standard event name of each type. */
  function MapEventName(t: EventType): Option<string> {
    match t
    case AddToCart => Some("AddToCart")
    case ViewItem => Some("ViewContent")
    case Purchase => Some("Purchase")
    case CompletedRegistration => Some("CompleteRegistration")
    case PageView => Some("PageView")
    case Search => Some("Search")
    case Subscription => Some("Subscribe")
    case BeginCheckout => Some("InitiateCheckout")
    case ViewCart => Some("ViewCart")
    case AddPaymentInfo => Some("AddPaymentInfo")
    case AddToWishlist => Some("AddToWishlist")
    case CustomizeProduct => Some("CustomizeProduct")
  }

  /** The `user_data` assignments, in source order. */
  function UserFields(c: CustomerData, hash: string -> string): seq<Entry> {
    [ When(c.email.Some?, "em", VStr(if c.email.Some? then c.email.value.Hash(hash) else "")),
      When(c.phone.Some?, "ph", VStr(if c.phone.Some? then c.phone.value.Hash(hash) else "")),
      When(c.ipAddress.Some?, "client_ip_address", VStr(if c.ipAddress.Some? then c.ipAddress.value.value else "")),
      When(c.userAgent.Some?, "client_user_agent", VStr(if c.userAgent.Some? then c.userAgent.value.ToString() else "")),
      When(c.dateOfBirth.Some?, "db", VStr(if c.dateOfBirth.Some? then Ymd(c.dateOfBirth.value) else "")),
      When(Filled(c.gender), "ge", VStr(if Filled(c.gender) then Lower(c.gender.value[..1]) else "")),
      When(Filled(c.firstName), "fn", VStr(Lower(c.firstName.GetOr("")))),
      When(Filled(c.lastName), "ln", VStr(Lower(c.lastName.GetOr("")))),
      When(Filled(c.city), "ct", VStr(Lower(c.city.GetOr("")))),
      When(Filled(c.state), "st", VStr(Lower(c.state.GetOr("")))),
      When(Filled(c.countryCode), "country", VStr(Lower(c.countryCode.GetOr("")))),
      When(Filled(c.zipCode), "zp", VStr(c.zipCode.GetOr(""))),
      When(Filled(c.externalId), "external_id", VStr(c.externalId.GetOr(""))),
      When(Filled(c.fbc), "fbc", VStr(c.fbc.GetOr(""))),
      When(Filled(c.fbp), "fbp", VStr(c.fbp.GetOr(""))) ]
  }

  /** One element of `contents`. */
  function Content(item: Value): Value {
    VDict(map["id" := ItemField(item, "item_id", VStr("")),
              "quantity" := ItemField(item, "quantity", VInt(1)),
              "item_price" := ItemField(item, "price", VInt(0))])
  }

  /** The `custom_data` assignments, in source order. */
  function CustomFields(e: PixelEvent): seq<Entry> {
    [ When(e.value.Some?, "value", VFloat(if e.value.Some? then e.value.value.amount else 0.0)),
      When(e.value.Some?, "currency", VStr(if e.value.Some? then e.value.value.CurrencyCode() else "")),
      When(e.HasItems(), "contents", MapItems(e.items, Content)),
      When(e.HasItems(), "num_items", VInt(Count(e.items))),
      When(Filled(e.transactionId), "order_id", VStr(e.transactionId.GetOr(""))),
      When(Filled(e.searchTerm), "search_string", VStr(e.searchTerm.GetOr(""))) ]
  }

  /** The one server event of the request, given its `user_data` and
      `custom_data`: the fixed fields, then the page URL when there is one. */
  function EventFields(e: PixelEvent, userData: Value, customData: Value): seq<Entry> {
    [ Always("event_name", OptStr(MapEventName(e.eventType))),
      Always("event_id", VStr(e.id)),
      Always("event_time", VInt(e.occurredAt)),
      Always("action_source", VStr("website")),
      Always("user_data", userData),
      Always("custom_data", customData),
      When(e.pageUrl.Some?, "event_source_url", VStr(if e.pageUrl.Some? then e.pageUrl.value.ToString() else "")) ]
  }

  function UserData(c: CustomerData, hash: string -> string): Value {
    VDict(Entries(UserFields(c, hash)))
  }

  function CustomData(e: PixelEvent): Value {
    VDict(Entries(CustomFields(e)))
  }

  function ServerEvent(e: PixelEvent, hash: string -> string): map<string, Value> {
    Entries(EventFields(e, UserData(e.customer, hash), CustomData(e)))
  }

  /** `buildPayload`; the credentials have to be Meta's. */
  function Payload(e: PixelEvent, c: Credentials, hash: string -> string): Value
    requires c.MetaCredentials?
  {
    VDict(map["data" := VList([VDict(ServerEvent(e, hash))]), "access_token" := VStr(c.accessToken)])
  }

  const EndpointPrefix := "https://graph.facebook.com/v18.0/"
  const EndpointSuffix := "/events"

  /** `getEndpointUrl`: the pixel's events edge of Graph API v18.0. */
  function Endpoint(c: Credentials): (url: string)
    requires c.MetaCredentials?
  {
    EndpointPrefix + c.pixelId + EndpointSuffix
  }

  /** `getHeaders`: the JSON content type alone; the access token travels in the body, so no header
      carries the credentials' accessToken. */
  function Headers(c: Credentials): (h: map<string, string>)
    ensures h.Keys == {"Content-Type"}
    ensures c.MetaCredentials? && c.accessToken != "application/json" ==> c.accessToken !in h.Values
  {
    var h := map["Content-Type" := "application/json"];
    assert forall v :: v in h.Values ==> v == "application/json";
    h
  }

  /** Every type is supported and has a name, and no two types share one. */
  lemma NamesTotalAndDistinct(t: EventType, u: EventType)
    ensures Supports(t) && MapEventName(t).Some?
    ensures MapEventName(t) == MapEventName(u) ==> t == u
  {
  }

  /** The pixel id can be read back from the endpoint. */
  lemma EndpointNamesPixel(c: Credentials)
    requires c.MetaCredentials?
    ensures StartsWith(Endpoint(c), EndpointPrefix)
    ensures |Endpoint(c)| == |EndpointPrefix| + |c.pixelId| + |EndpointSuffix|
    ensures Endpoint(c)[|EndpointPrefix|..|EndpointPrefix| + |c.pixelId|] == c.pixelId
  {
    var url := Endpoint(c);
    assert url[..|EndpointPrefix|] == EndpointPrefix;
  }

  /** The request is one server event under `data` plus the access token. */
  lemma PayloadShape(e: PixelEvent, c: Credentials, hash: string -> string)
    requires c.MetaCredentials?
    ensures var p := Payload(e, c, hash).entries;
      p.Keys == {"data", "access_token"} && p["access_token"] == VStr(c.accessToken) &&
      p["data"] == VList([VDict(ServerEvent(e, hash))])
  {
  }

  /** The server event carries the event's id, time and Meta name, the
      customer and custom data, and the page URL exactly when the event has
      one. */
  lemma EventFieldsOf(e: PixelEvent, userData: Value, customData: Value)
    ensures var ev := Entries(EventFields(e, userData, customData));
      "event_id" in ev && ev["event_id"] == VStr(e.id) &&
      "event_time" in ev && ev["event_time"] == VInt(e.occurredAt) &&
      "event_name" in ev && ev["event_name"] == VStr(MapEventName(e.eventType).value) &&
      "action_source" in ev && ev["action_source"] == VStr("website") &&
      "user_data" in ev && ev["user_data"] == userData &&
      "custom_data" in ev && ev["custom_data"] == customData &&
      ("event_source_url" in ev <==> e.pageUrl.Some?)
  {
    var fs := EventFields(e, userData, customData);
    var ks := seq(|fs|, i requires 0 <= i < |fs| => fs[i].key);
    assert ks == ["event_name", "event_id", "event_time", "action_source", "user_data", "custom_data", "event_source_url"];
    EntryAt(fs, 0);
    EntryAt(fs, 1);
    EntryAt(fs, 2);
    EntryAt(fs, 3);
    EntryAt(fs, 4);
    EntryAt(fs, 5);
    EntryAt(fs, 6);
  }

  const UserKeys := ["em", "ph", "client_ip_address", "client_user_agent", "db", "ge", "fn", "ln",
                      "ct", "st", "country", "zp", "external_id", "fbc", "fbp"]

  lemma UserKeysDistinct(c: CustomerData, hash: string -> string)
    ensures DistinctKeys(UserFields(c, hash))
    ensures |UserFields(c, hash)| == |UserKeys|
    ensures forall i :: 0 <= i < |UserKeys| ==> UserFields(c, hash)[i].key == UserKeys[i]
  {
    var fs := UserFields(c, hash);
    var ks := seq(|fs|, i requires 0 <= i < |fs| => fs[i].key);
    assert ks == UserKeys;
  }

  /** The value a `user_data` key holds, when its assignment ran. */
  lemma UserEntry(c: CustomerData, hash: string -> string, i: nat)
    requires i < |UserKeys|
    ensures UserKeys[i] in UserData(c, hash).entries <==> UserFields(c, hash)[i].value.Some?
    ensures UserFields(c, hash)[i].value.Some? ==>
      UserData(c, hash).entries[UserKeys[i]] == UserFields(c, hash)[i].value.value
  {
    UserKeysDistinct(c, hash);
    EntriesLookup(UserFields(c, hash));
  }

  /** `user_data` holds each identifier exactly when the customer has it,
      hashed for email and phone. */
  lemma UserDataIdentifiers(c: CustomerData, hash: string -> string)
    ensures var u := UserData(c, hash).entries;
      ("em" in u <==> c.email.Some?) && (c.email.Some? ==> u["em"] == VStr(hash(c.email.value.value))) &&
      ("ph" in u <==> c.phone.Some?) && (c.phone.Some? ==> u["ph"] == VStr(c.phone.value.Hash(hash))) &&
      ("client_ip_address" in u <==> c.ipAddress.Some?) &&
      ("client_user_agent" in u <==> c.userAgent.Some?) &&
      ("db" in u <==> c.dateOfBirth.Some?) &&
      (c.dateOfBirth.Some? ==> u["db"] == VStr(Ymd(c.dateOfBirth.value)))
  {
    UserEntry(c, hash, 0);
    UserEntry(c, hash, 1);
    UserEntry(c, hash, 2);
    UserEntry(c, hash, 3);
    UserEntry(c, hash, 4);
  }

  /** The personal fields are sent lower-cased, gender as its first letter,
      each only when it is neither missing, '' nor '0'. */
  lemma UserDataPerson(c: CustomerData, hash: string -> string)
    ensures var u := UserData(c, hash).entries;
      ("ge" in u <==> Filled(c.gender)) &&
      (Filled(c.gender) ==> u["ge"] == VStr([LowerChar(c.gender.value[0])])) &&
      ("fn" in u <==> Filled(c.firstName)) &&
      (Filled(c.firstName) ==> u["fn"] == VStr(Lower(c.firstName.value))) &&
      ("ln" in u <==> Filled(c.lastName)) &&
      (Filled(c.lastName) ==> u["ln"] == VStr(Lower(c.lastName.value)))
  {
    UserEntry(c, hash, 5);
    UserEntry(c, hash, 6);
    UserEntry(c, hash, 7);
    if Filled(c.gender) {
      assert Lower(c.gender.value[..1]) == [LowerChar(c.gender.value[0])];
    }
  }

  /** Places, the external id and the click ids, each only when filled. */
  lemma UserDataPlaceAndIds(c: CustomerData, hash: string -> string)
    ensures var u := UserData(c, hash).entries;
      ("ct" in u <==> Filled(c.city)) && ("st" in u <==> Filled(c.state)) &&
      ("country" in u <==> Filled(c.countryCode)) &&
      (Filled(c.countryCode) ==> u["country"] == VStr(Lower(c.countryCode.value))) &&
      ("zp" in u <==> Filled(c.zipCode)) && ("external_id" in u <==> Filled(c.externalId)) &&
      (Filled(c.externalId) ==> u["external_id"] == VStr(c.externalId.value)) &&
      ("fbc" in u <==> Filled(c.fbc)) && ("fbp" in u <==> Filled(c.fbp))
  {
    UserEntry(c, hash, 8);
    UserEntry(c, hash, 9);
    UserEntry(c, hash, 10);
    UserEntry(c, hash, 11);
    UserEntry(c, hash, 12);
    UserEntry(c, hash, 13);
    UserEntry(c, hash, 14);
  }

  /** `custom_data` carries value and currency exactly when the event has a
      value, contents and their count exactly when it has items, and the
      order id from the transaction id. */
  lemma CustomDataFields(e: PixelEvent)
    ensures var d := CustomData(e).entries;
      ("value" in d <==> e.value.Some?) && ("currency" in d <==> e.value.Some?) &&
      (e.value.Some? ==> d["value"] == VFloat(e.value.value.amount) &&
                         d["currency"] == VStr(e.value.value.CurrencyCode())) &&
      ("contents" in d <==> e.HasItems()) && ("num_items" in d <==> e.HasItems()) &&
      (e.HasItems() ==> d["num_items"] == VInt(Count(e.items)) &&
                        d["contents"] == MapItems(e.items, Content)) &&
      ("order_id" in d <==> Filled(e.transactionId)) &&
      (Filled(e.transactionId) ==> d["order_id"] == VStr(e.transactionId.value)) &&
      ("search_string" in d <==> Filled(e.searchTerm))
  {
    var fs := CustomFields(e);
    EntriesLookup(fs);
    assert fs[0].key == "value" && fs[1].key == "currency" && fs[2].key == "contents";
    assert fs[3].key == "num_items" && fs[4].key == "order_id" && fs[5].key == "search_string";
  }

  /** An item without quantity or price is sent with quantity 1 and price 0,
      and one without an id with the id ''. */
  lemma ContentDefaults(item: Value)
    ensures !ArrayKeyExists(item, "quantity") ==> Content(item).entries["quantity"] == VInt(1)
    ensures !ArrayKeyExists(item, "item_price") && !ArrayKeyExists(item, "price") ==>
      Content(item).entries["item_price"] == VInt(0)
    ensures !ArrayKeyExists(item, "item_id") ==> Content(item).entries["id"] == VStr("")
  {
  }
}
