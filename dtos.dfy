/** The data transfer objects that turn a raw request array into typed
    fields, each key with its fixed fallbacks, and back. */
module Dtos {
  import opened Php

  /** `$data[$k] ?? null` passed to a `?string` parameter. */
  function NullableStr(data: Record, k: string): (r: Result<Option<string>>)
    ensures r == AsNullableString(Lookup(data, k), k)
  {
    AsNullableString(Lookup(data, k), k)
  }

  /** `$data[$k1] ?? $data[$k2] ?? null` passed to a `?string` parameter. */
  function NullableStrOr(data: Record, k1: string, k2: string): (r: Result<Option<string>>)
    ensures IsSet(data, k1) ==> r == AsNullableString(data[k1], k1)
    ensures !IsSet(data, k1) ==> r == AsNullableString(Lookup(data, k2), k1)
  {
    AsNullableString(Coalesce(Lookup(data, k1), Lookup(data, k2)), k1)
  }

  /** `isset($data[$k]) ? (float) $data[$k] : null`. */
  function OptFloat(data: Record, k: string): (r: Option<real>)
    ensures r.Some? <==> IsSet(data, k)
  {
    if IsSet(data, k) then Some(ToFloat(data[k])) else None
  }

  /** An array value as the string-keyed record its keys are read from; a
      list has no string keys. */
  function AsRecord(v: Value): Record {
    if v.VDict? then v.entries else map[]
  }

  // ---------------------------------------------------------- CustomerDTO

  datatype CustomerDto = CustomerDto(
    email: Option<string>, phone: Option<string>, phoneCode: Option<string>,
    ipAddress: Option<string>, userAgent: Option<string>, externalId: Option<string>,
    firstName: Option<string>, lastName: Option<string>, gender: Option<string>,
    dateOfBirth: Option<string>, city: Option<string>, state: Option<string>,
    countryCode: Option<string>, zipCode: Option<string>, fbc: Option<string>,
    fbp: Option<string>, custom: Value)

  /** `CustomerDTO::fromArray`. `phone_code` defaults to '', `custom` to [];
      the IP address and user agent fall back to the `client_` keys. */
  function CustomerFromArray(data: Record): (r: Result<CustomerDto>)
    ensures r.Err? ==> r.error.TypeError?
    ensures r.Ok? ==> r.value.phoneCode.Some? && r.value.custom.IsArray()
  {
    var email :- NullableStr(data, "email");
    var phone :- NullableStr(data, "phone");
    var phoneCode :- AsNullableString(Coalesce(Lookup(data, "phone_code"), VStr("")), "phone_code");
    var ip :- NullableStrOr(data, "ip_address", "client_ip_address");
    var ua :- NullableStrOr(data, "user_agent", "client_user_agent");
    var ext :- NullableStr(data, "external_id");
    var first :- NullableStr(data, "first_name");
    var last :- NullableStr(data, "last_name");
    var gender :- NullableStr(data, "gender");
    var dob :- NullableStr(data, "date_of_birth");
    var city :- NullableStr(data, "city");
    var state :- NullableStr(data, "state");
    var cc :- NullableStr(data, "country_code");
    var zip :- NullableStr(data, "zip_code");
    var fbc :- NullableStr(data, "fbc");
    var fbp :- NullableStr(data, "fbp");
    var custom :- AsArray(Coalesce(Lookup(data, "custom"), VList([])), "custom");
    Ok(CustomerDto(email, phone, phoneCode, ip, ua, ext, first, last, gender, dob, city,
      state, cc, zip, fbc, fbp, custom))
  }

  /** `CustomerDTO::toArray`: every field under its canonical key. */
  function CustomerToArray(d: CustomerDto): (r: Record)
  {
    map["email" := OptStr(d.email), "phone" := OptStr(d.phone),
        "phone_code" := OptStr(d.phoneCode), "ip_address" := OptStr(d.ipAddress),
        "user_agent" := OptStr(d.userAgent), "external_id" := OptStr(d.externalId),
        "first_name" := OptStr(d.firstName), "last_name" := OptStr(d.lastName),
        "gender" := OptStr(d.gender), "date_of_birth" := OptStr(d.dateOfBirth),
        "city" := OptStr(d.city), "state" := OptStr(d.state),
        "country_code" := OptStr(d.countryCode), "zip_code" := OptStr(d.zipCode),
        "fbc" := OptStr(d.fbc), "fbp" := OptStr(d.fbp), "custom" := d.custom]
  }

  /** `m` holds each field of `d` under its canonical key. */
  ghost predicate HoldsCustomer(m: Record, d: CustomerDto) {
      "email" in m && m["email"] == OptStr(d.email) && "phone" in m && m["phone"] == OptStr(d.phone) &&
      "phone_code" in m && m["phone_code"] == OptStr(d.phoneCode) && "ip_address" in m && m["ip_address"] == OptStr(d.ipAddress) &&
      "user_agent" in m && m["user_agent"] == OptStr(d.userAgent) && "external_id" in m && m["external_id"] == OptStr(d.externalId) &&
      "first_name" in m && m["first_name"] == OptStr(d.firstName) && "last_name" in m && m["last_name"] == OptStr(d.lastName) &&
      "gender" in m && m["gender"] == OptStr(d.gender) && "date_of_birth" in m && m["date_of_birth"] == OptStr(d.dateOfBirth) &&
      "city" in m && m["city"] == OptStr(d.city) && "state" in m && m["state"] == OptStr(d.state) &&
      "country_code" in m && m["country_code"] == OptStr(d.countryCode) && "zip_code" in m && m["zip_code"] == OptStr(d.zipCode) &&
      "fbc" in m && m["fbc"] == OptStr(d.fbc) && "fbp" in m && m["fbp"] == OptStr(d.fbp) && "custom" in m && m["custom"] == d.custom &&
      "client_ip_address" !in m && "client_user_agent" !in m
  }

  /** `CustomerDTO::toArray` puts each field under its canonical key. */
  lemma CustomerArrayFields(d: CustomerDto)
    ensures HoldsCustomer(CustomerToArray(d), d)
  {
  }

  /** A string-or-null stored under its key reads back as itself. */
  lemma ReadBack(m: Record, k: string, o: Option<string>)
    requires k in m && m[k] == OptStr(o)
    ensures NullableStr(m, k) == Ok(o)
  {
  }

  /** Every field of a customer but the phone code reads back from its array. */
  lemma CustomerFieldsReadBack(d: CustomerDto, m: Record)
    requires HoldsCustomer(m, d)
    ensures NullableStr(m, "email") == Ok(d.email) && NullableStr(m, "phone") == Ok(d.phone)
    ensures NullableStrOr(m, "ip_address", "client_ip_address") == Ok(d.ipAddress)
    ensures NullableStrOr(m, "user_agent", "client_user_agent") == Ok(d.userAgent)
    ensures NullableStr(m, "external_id") == Ok(d.externalId)
    ensures NullableStr(m, "first_name") == Ok(d.firstName)
    ensures NullableStr(m, "last_name") == Ok(d.lastName)
    ensures NullableStr(m, "gender") == Ok(d.gender)
    ensures NullableStr(m, "date_of_birth") == Ok(d.dateOfBirth)
    ensures NullableStr(m, "city") == Ok(d.city) && NullableStr(m, "state") == Ok(d.state)
    ensures NullableStr(m, "country_code") == Ok(d.countryCode)
    ensures NullableStr(m, "zip_code") == Ok(d.zipCode)
    ensures NullableStr(m, "fbc") == Ok(d.fbc) && NullableStr(m, "fbp") == Ok(d.fbp)
  {
    ReadBack(m, "email", d.email);
    ReadBack(m, "phone", d.phone);
    ReadBack(m, "ip_address", d.ipAddress);
    ReadBack(m, "user_agent", d.userAgent);
    ReadBack(m, "external_id", d.externalId);
    ReadBack(m, "first_name", d.firstName);
    ReadBack(m, "last_name", d.lastName);
    ReadBack(m, "gender", d.gender);
    ReadBack(m, "date_of_birth", d.dateOfBirth);
    ReadBack(m, "city", d.city);
    ReadBack(m, "state", d.state);
    ReadBack(m, "country_code", d.countryCode);
    ReadBack(m, "zip_code", d.zipCode);
    ReadBack(m, "fbc", d.fbc);
    ReadBack(m, "fbp", d.fbp);
  }

  /** A customer with a phone code reads back from its array unchanged. */
  lemma CustomerRoundTrip(d: CustomerDto)
    requires d.phoneCode.Some? && d.custom.IsArray()
    ensures CustomerFromArray(CustomerToArray(d)) == Ok(d)
  {
    var m := CustomerToArray(d);
    CustomerArrayFields(d);
    assert Coalesce(Lookup(m, "phone_code"), VStr("")) == VStr(d.phoneCode.value);
    assert Coalesce(Lookup(m, "custom"), VList([])) == d.custom;
    ReadsCustomer(m, d, d.phoneCode);
  }

  /** A null phone code does not survive the round trip: it reads back as ''. */
  lemma NullPhoneCodeReadsEmpty(d: CustomerDto)
    requires d.phoneCode.None? && d.custom.IsArray()
    ensures CustomerFromArray(CustomerToArray(d)) == Ok(d.(phoneCode := Some("")))
  {
    var m := CustomerToArray(d);
    CustomerArrayFields(d);
    assert Coalesce(Lookup(m, "phone_code"), VStr("")) == VStr("");
    assert Coalesce(Lookup(m, "custom"), VList([])) == d.custom;
    ReadsCustomer(m, d, Some(""));
  }

  /** An array holding a customer's fields reads back as that customer,
      with the phone code and custom data its own defaults give. */
  lemma ReadsCustomer(m: Record, d: CustomerDto, phoneCode: Option<string>)
    requires HoldsCustomer(m, d)
    requires AsNullableString(Coalesce(Lookup(m, "phone_code"), VStr("")), "phone_code") == Ok(phoneCode)
    requires AsArray(Coalesce(Lookup(m, "custom"), VList([])), "custom") == Ok(d.custom)
    ensures CustomerFromArray(m) == Ok(d.(phoneCode := phoneCode))
  {
    CustomerFieldsReadBack(d, m);
  }

  /** The `client_` keys are read only when the canonical key is unset. */
  lemma ClientKeysFallback(data: Record)
    requires CustomerFromArray(data).Ok?
    ensures var d := CustomerFromArray(data).value;
      (IsSet(data, "ip_address") ==> d.ipAddress == Some(data["ip_address"].s)) &&
      (!IsSet(data, "ip_address") && IsSet(data, "client_ip_address") ==>
         d.ipAddress == Some(data["client_ip_address"].s)) &&
      (!IsSet(data, "ip_address") && !IsSet(data, "client_ip_address") ==> d.ipAddress.None?) &&
      (!IsSet(data, "user_agent") && IsSet(data, "client_user_agent") ==>
         d.userAgent == Some(data["client_user_agent"].s))
  {
  }

  // -------------------------------------------------------------- ItemDTO

  datatype ItemDto = ItemDto(
    itemId: string, itemName: string, price: real, quantity: int,
    category: Option<string>, brand: Option<string>, variant: Option<string>,
    discount: Option<real>)

  /** `ItemDTO::fromArray`: id and name default to '', price to 0 and
      quantity to 1, each cast; the other keys fall back to `item_` keys. */
  function ItemFromArray(data: Record): (r: Result<ItemDto>)
    ensures r.Err? ==> r.error.TypeError?
    ensures r.Ok? ==> r.value.quantity == ToInt(Coalesce(Lookup(data, "quantity"), VInt(1)))
    ensures r.Ok? ==>
      r.value.price == ToFloat(Coalesce(Lookup(data, "price"), Coalesce(Lookup(data, "item_price"), VInt(0))))
  {
    var id :- AsString(Coalesce(Lookup(data, "item_id"), Coalesce(Lookup(data, "id"), VStr(""))), "itemId");
    var name :- AsString(Coalesce(Lookup(data, "item_name"), Coalesce(Lookup(data, "name"), VStr(""))), "itemName");
    var price := ToFloat(Coalesce(Lookup(data, "price"), Coalesce(Lookup(data, "item_price"), VInt(0))));
    var quantity := ToInt(Coalesce(Lookup(data, "quantity"), VInt(1)));
    var category :- NullableStrOr(data, "category", "item_category");
    var brand :- NullableStrOr(data, "brand", "item_brand");
    var variant :- NullableStrOr(data, "variant", "item_variant");
    Ok(ItemDto(id, name, price, quantity, category, brand, variant, OptFloat(data, "discount")))
  }

  /** `ItemDTO::toArray`. */
  function ItemToArray(d: ItemDto): (r: Record)
    ensures r.Keys == {"item_id", "item_name", "price", "quantity", "category", "brand",
      "variant", "discount"}
  {
    map["item_id" := VStr(d.itemId), "item_name" := VStr(d.itemName),
        "price" := VFloat(d.price), "quantity" := VInt(d.quantity),
        "category" := OptStr(d.category), "brand" := OptStr(d.brand),
        "variant" := OptStr(d.variant), "discount" := OptReal(d.discount)]
  }

  /** Every item reads back from its array unchanged. */
  lemma ItemRoundTrip(d: ItemDto)
    ensures ItemFromArray(ItemToArray(d)) == Ok(d)
  {
    var m := ItemToArray(d);
    assert HoldsItem(m, d);
    ReadsItem(m, d);
  }

  /** `m` holds each field of `d` under its canonical key. */
  ghost predicate HoldsItem(m: Record, d: ItemDto) {
    "item_id" in m && m["item_id"] == VStr(d.itemId) && "item_name" in m && m["item_name"] == VStr(d.itemName) &&
    "price" in m && m["price"] == VFloat(d.price) && "quantity" in m && m["quantity"] == VInt(d.quantity) &&
    "category" in m && m["category"] == OptStr(d.category) && "brand" in m && m["brand"] == OptStr(d.brand) &&
    "variant" in m && m["variant"] == OptStr(d.variant) && "discount" in m && m["discount"] == OptReal(d.discount) &&
    "item_category" !in m && "item_brand" !in m && "item_variant" !in m
  }

  /** An array holding an item's fields reads back as that item. */
  lemma ReadsItem(m: Record, d: ItemDto)
    requires HoldsItem(m, d)
    ensures ItemFromArray(m) == Ok(d)
  {
    assert Coalesce(Lookup(m, "item_id"), Coalesce(Lookup(m, "id"), VStr(""))) == VStr(d.itemId);
    assert Coalesce(Lookup(m, "item_name"), Coalesce(Lookup(m, "name"), VStr(""))) == VStr(d.itemName);
    assert Coalesce(Lookup(m, "price"), Coalesce(Lookup(m, "item_price"), VInt(0))) == VFloat(d.price);
    assert Coalesce(Lookup(m, "quantity"), VInt(1)) == VInt(d.quantity);
    assert OptFloat(m, "discount") == d.discount;
    ReadBackOr(m, "category", "item_category", d.category);
    ReadBackOr(m, "brand", "item_brand", d.brand);
    ReadBackOr(m, "variant", "item_variant", d.variant);
  }

  /** A string-or-null stored under the first key reads back as itself. */
  lemma ReadBackOr(m: Record, k1: string, k2: string, o: Option<string>)
    requires k1 in m && m[k1] == OptStr(o) && (o.None? ==> k2 !in m)
    ensures NullableStrOr(m, k1, k2) == Ok(o)
  {
  }

  /** An empty array gives the defaults. */
  lemma ItemDefaults()
    ensures ItemFromArray(map[]) == Ok(ItemDto("", "", 0.0, 1, None, None, None, None))
  {
  }

  /** Under strict types an integer `id` is refused by the `string` parameter. */
  lemma IntegerIdRejected(n: int)
    ensures ItemFromArray(map["id" := VInt(n)]).Err?
  {
    var m := map["id" := VInt(n)];
    assert Coalesce(Lookup(m, "item_id"), Coalesce(Lookup(m, "id"), VStr(""))) == VInt(n);
  }

  // ------------------------------------------------------------- EventDTO

  datatype EventDto = EventDto(
    eventType: string, eventName: string, eventId: Option<string>,
    transactionId: Option<string>, orderId: Option<string>, value: Option<real>,
    currency: Option<string>, shipping: Option<real>, searchTerm: Option<string>,
    pageUrl: Option<string>, customer: Option<CustomerDto>, items: Value,
    customProperties: Value)

  /** The `customer` argument: `isset` then `CustomerDTO::fromArray`, whose
      `array` parameter refuses anything else. */
  function CustomerArg(data: Record): (r: Result<Option<CustomerDto>>)
    ensures !IsSet(data, "customer") ==> r == Ok(None)
    ensures IsSet(data, "customer") && !data["customer"].IsArray() ==> r.Err?
  {
    if IsSet(data, "customer") then
      var arr :- AsArray(data["customer"], "data");
      var c :- CustomerFromArray(AsRecord(arr));
      Ok(Some(c))
    else Ok(None)
  }

  /** `EventDTO::fromArray`. The type falls back to `event`, the page URL to
      `event_source_url`, the items to `contents`. The nested customer is
      built while the arguments are evaluated, before the constructor's own
      parameter checks. */
  function EventFromArray(data: Record): (r: Result<EventDto>)
    ensures r.Err? ==> r.error.TypeError?
    ensures r.Ok? ==> r.value.items.IsArray() && r.value.customProperties.IsArray()
    ensures r.Ok? && IsSet(data, "event_type") ==> data["event_type"] == VStr(r.value.eventType)
    ensures r.Ok? && !IsSet(data, "event_type") && IsSet(data, "event") ==>
      data["event"] == VStr(r.value.eventType) && r.value.eventType == r.value.eventName
    ensures r.Ok? && !IsSet(data, "event_type") && !IsSet(data, "event") ==>
      r.value.eventType == "" == r.value.eventName
    ensures r.Ok? ==> (r.value.value.Some? <==> IsSet(data, "value"))
  {
    var customer :- CustomerArg(data);
    var eventType :- AsString(Coalesce(Lookup(data, "event_type"),
                                       Coalesce(Lookup(data, "event"), VStr(""))), "eventType");
    var eventName :- AsString(Coalesce(Lookup(data, "event"), VStr("")), "eventName");
    var eventId :- NullableStr(data, "event_id");
    var transactionId :- NullableStr(data, "transaction_id");
    var orderId :- NullableStr(data, "order_id");
    var currency :- NullableStr(data, "currency");
    var searchTerm :- NullableStr(data, "search_term");
    var pageUrl :- NullableStrOr(data, "page_url", "event_source_url");
    var items :- AsArray(Coalesce(Lookup(data, "items"),
                                  Coalesce(Lookup(data, "contents"), VList([]))), "items");
    var props :- AsArray(Coalesce(Lookup(data, "custom_properties"), VList([])), "customProperties");
    Ok(EventDto(eventType, eventName, eventId, transactionId, orderId, OptFloat(data, "value"),
      currency, OptFloat(data, "shipping"), searchTerm, pageUrl, customer, items, props))
  }

  /** `EventDTO::toArray`; the customer becomes its own array, or null. */
  function EventToArray(d: EventDto): (r: Record)
    ensures r.Keys == {"event_type", "event", "event_id", "transaction_id", "order_id", "value",
      "currency", "shipping", "search_term", "page_url", "customer", "items", "custom_properties"}
  {
    map["event_type" := VStr(d.eventType), "event" := VStr(d.eventName),
        "event_id" := OptStr(d.eventId), "transaction_id" := OptStr(d.transactionId),
        "order_id" := OptStr(d.orderId), "value" := OptReal(d.value),
        "currency" := OptStr(d.currency), "shipping" := OptReal(d.shipping),
        "search_term" := OptStr(d.searchTerm), "page_url" := OptStr(d.pageUrl),
        "customer" := (if d.customer.Some? then VDict(CustomerToArray(d.customer.value)) else VNull),
        "items" := d.items, "custom_properties" := d.customProperties]
  }

  /** `m` holds each field of `d` under its canonical key. */
  ghost predicate HoldsEvent(m: Record, d: EventDto) {
    "event_type" in m && m["event_type"] == VStr(d.eventType) &&
    "event" in m && m["event"] == VStr(d.eventName) &&
    "event_id" in m && m["event_id"] == OptStr(d.eventId) &&
    "transaction_id" in m && m["transaction_id"] == OptStr(d.transactionId) &&
    "order_id" in m && m["order_id"] == OptStr(d.orderId) &&
    "value" in m && m["value"] == OptReal(d.value) &&
    "currency" in m && m["currency"] == OptStr(d.currency) &&
    "shipping" in m && m["shipping"] == OptReal(d.shipping) &&
    "search_term" in m && m["search_term"] == OptStr(d.searchTerm) &&
    "page_url" in m && m["page_url"] == OptStr(d.pageUrl) &&
    "customer" in m && m["customer"] == (if d.customer.Some? then VDict(CustomerToArray(d.customer.value)) else VNull) &&
    "items" in m && m["items"] == d.items &&
    "custom_properties" in m && m["custom_properties"] == d.customProperties &&
    "event_source_url" !in m && "contents" !in m
  }

  /** `EventDTO::toArray` puts each field under its canonical key. */
  lemma EventArrayFields(d: EventDto)
    ensures HoldsEvent(EventToArray(d), d)
  {
  }

  /** The scalar fields of an event read back from an array holding them. */
  lemma EventFieldsReadBack(d: EventDto, m: Record)
    requires HoldsEvent(m, d) && d.items.IsArray() && d.customProperties.IsArray()
    ensures AsString(Coalesce(Lookup(m, "event_type"), Coalesce(Lookup(m, "event"), VStr(""))), "eventType") == Ok(d.eventType)
    ensures AsString(Coalesce(Lookup(m, "event"), VStr("")), "eventName") == Ok(d.eventName)
    ensures NullableStr(m, "event_id") == Ok(d.eventId)
    ensures NullableStr(m, "transaction_id") == Ok(d.transactionId)
    ensures NullableStr(m, "order_id") == Ok(d.orderId)
    ensures NullableStr(m, "currency") == Ok(d.currency)
    ensures NullableStr(m, "search_term") == Ok(d.searchTerm)
    ensures NullableStrOr(m, "page_url", "event_source_url") == Ok(d.pageUrl)
    ensures AsArray(Coalesce(Lookup(m, "items"), Coalesce(Lookup(m, "contents"), VList([]))), "items") == Ok(d.items)
    ensures AsArray(Coalesce(Lookup(m, "custom_properties"), VList([])), "customProperties") == Ok(d.customProperties)
    ensures OptFloat(m, "value") == d.value && OptFloat(m, "shipping") == d.shipping
  {
    ReadBack(m, "event_id", d.eventId);
    ReadBack(m, "transaction_id", d.transactionId);
    ReadBack(m, "order_id", d.orderId);
    ReadBack(m, "currency", d.currency);
    ReadBack(m, "search_term", d.searchTerm);
    ReadBack(m, "page_url", d.pageUrl);
  }

  /** An event whose customer has a phone code reads back from its array
      unchanged. */
  lemma EventRoundTrip(d: EventDto)
    requires d.items.IsArray() && d.customProperties.IsArray()
    requires d.customer.Some? ==> d.customer.value.phoneCode.Some? && d.customer.value.custom.IsArray()
    ensures EventFromArray(EventToArray(d)) == Ok(d)
  {
    var m := EventToArray(d);
    EventArrayFields(d);
    EventFieldsReadBack(d, m);
    if d.customer.Some? {
      CustomerRoundTrip(d.customer.value);
      assert CustomerArg(m) == Ok(d.customer);
    } else {
      assert CustomerArg(m) == Ok(None);
    }
  }

  /** Reading an array, writing it back and reading again changes nothing:
      the first read already normalised it. */
  lemma EventReadIdempotent(data: Record)
    requires EventFromArray(data).Ok?
    ensures EventFromArray(EventToArray(EventFromArray(data).value)) == EventFromArray(data)
  {
    var d := EventFromArray(data).value;
    if d.customer.Some? {
      assert IsSet(data, "customer");
      var c := CustomerFromArray(AsRecord(data["customer"]));
      assert c.Ok? && d.customer == Some(c.value);
    }
    EventRoundTrip(d);
  }
}
