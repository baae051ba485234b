/** The outcome of one delivery attempt to an advertising platform. */
module Responses {
  import opened Php

  /** `sentAt` is the instant the response was built, passed in by the
      caller in place of the clock. */
  datatype PlatformResponse = PlatformResponse(
    success: bool, errorMessage: Option<string>, rawResponse: Option<Value>, sentAt: int)
  {
    predicate IsSuccess() { success }
    predicate IsFailure() { !success }

    /** Built by `success` or `failure`: a message exactly when it failed. */
    predicate WellFormed() {
      (success <==> errorMessage.None?) && (rawResponse.Some? ==> rawResponse.value.IsArray())
    }
  }

  /** `PlatformResponse::success`. */
  function Success(raw: Option<Value>, now: int): (r: PlatformResponse)
    requires raw.Some? ==> raw.value.IsArray()
    ensures r.IsSuccess() && r.WellFormed()
    ensures r.rawResponse == raw && r.sentAt == now
  {
    PlatformResponse(true, None, raw, now)
  }

  /** `PlatformResponse::failure`. */
  function Failure(message: string, raw: Option<Value>, now: int): (r: PlatformResponse)
    requires raw.Some? ==> raw.value.IsArray()
    ensures r.IsFailure() && r.WellFormed()
    ensures r.errorMessage == Some(message) && r.rawResponse == raw && r.sentAt == now
  {
    PlatformResponse(false, Some(message), raw, now)
  }

  /** Every response is exactly one of success and failure. */
  lemma SuccessXorFailure(r: PlatformResponse)
    ensures r.IsSuccess() != r.IsFailure()
  {
  }

  /** A well-formed response carries a message iff it failed. */
  lemma MessageIffFailure(r: PlatformResponse)
    requires r.WellFormed()
    ensures r.IsFailure() <==> r.errorMessage.Some?
  {
  }
}

/** The tracking event, the aggregate that flows through the pipeline. */
module Events {
  import opened Php
  import opened EventTypes
  import opened MoneyValues
  import opened Urls
  import opened Customers

  /** `occurredAt` is an instant; `id` the event id string. `items` and
      `customProperties` are PHP arrays. The getters are the fields. */
  datatype PixelEvent = PixelEvent(
    id: string,
    eventType: EventType,
    customer: CustomerData,
    items: Value,
    value: Option<Money>,
    pageUrl: Option<Url>,
    occurredAt: int,
    customProperties: Value,
    transactionId: Option<string>,
    orderId: Option<string>,
    shipping: Option<real>,
    searchTerm: Option<string>)
  {
    /** `hasCustomProperty`: `array_key_exists`, so a key stored with a
        null value counts as present. */
    predicate HasCustomProperty(key: string) {
      ArrayKeyExists(customProperties, key)
    }

    /** `getCustomProperty`: `$props[$key] ?? $default`. */
    function GetCustomProperty(key: string, default: Value): (r: Value)
      ensures !HasCustomProperty(key) ==> r == default
      ensures customProperties.VDict? && IsSet(customProperties.entries, key) ==>
                r == customProperties.entries[key]
    {
      Coalesce(ArrayGet(customProperties, key), default)
    }

    predicate IsPurchase() { eventType == Purchase }

    /** `hasItems`: `!empty($items)`. */
    predicate HasItems() { !EmptyArray(items) }

    /** `hasValue`: a value is set and its amount is positive. */
    predicate HasValue() { value.Some? && value.value.IsPositive() }
  }

  /** `PixelEvent::reconstitute`: every field as given. */
  function Reconstitute(id: string, t: EventType, customer: CustomerData, items: Value,
                        value: Option<Money>, pageUrl: Option<Url>, occurredAt: int,
                        customProperties: Value, transactionId: Option<string>,
                        orderId: Option<string>, shipping: Option<real>,
                        searchTerm: Option<string>): (e: PixelEvent)
    requires items.IsArray() && customProperties.IsArray()
    ensures e.id == id && e.eventType == t && e.customer == customer && e.items == items
    ensures e.value == value && e.pageUrl == pageUrl && e.occurredAt == occurredAt
    ensures e.customProperties == customProperties && e.transactionId == transactionId
    ensures e.orderId == orderId && e.shipping == shipping && e.searchTerm == searchTerm
  {
    PixelEvent(id, t, customer, items, value, pageUrl, occurredAt, customProperties,
      transactionId, orderId, shipping, searchTerm)
  }

  /** `PixelEvent::create`: a freshly generated id and the current instant,
      both supplied by the caller. */
  function Create(freshId: string, now: int, t: EventType, customer: CustomerData, items: Value,
                  value: Option<Money>, pageUrl: Option<Url>, customProperties: Value,
                  transactionId: Option<string>, orderId: Option<string>,
                  shipping: Option<real>, searchTerm: Option<string>): (e: PixelEvent)
    requires items.IsArray() && customProperties.IsArray()
    ensures e == Reconstitute(freshId, t, customer, items, value, pageUrl, now,
                              customProperties, transactionId, orderId, shipping, searchTerm)
  {
    PixelEvent(freshId, t, customer, items, value, pageUrl, now, customProperties,
      transactionId, orderId, shipping, searchTerm)
  }

  /** `create` with only a type and a customer: no items, value, URL or
      custom properties. */
  lemma CreateDefaults(freshId: string, now: int, t: EventType, customer: CustomerData)
    ensures var e := Create(freshId, now, t, customer, VList([]), None, None, VList([]),
                            None, None, None, None);
      !e.HasItems() && !e.HasValue() && e.pageUrl.None? &&
      (forall k :: !e.HasCustomProperty(k)) && (e.IsPurchase() <==> t == Purchase)
  {
  }

  /** A custom property stored as null is present, yet reading it gives the
      default: `??` does not tell a null value from a missing key. */
  lemma StoredNullReadsDefault(e: PixelEvent, key: string, default: Value)
    requires e.customProperties.VDict? && key in e.customProperties.entries
    requires e.customProperties.entries[key] == VNull
    ensures e.HasCustomProperty(key) && e.GetCustomProperty(key, default) == default
  {
  }

  /** A list of custom properties answers to its decimal indices. */
  lemma ListPropertiesByIndex(e: PixelEvent, i: nat)
    requires e.customProperties.VList? && i < |e.customProperties.elems|
    ensures e.HasCustomProperty(NatStr(i))
    ensures e.customProperties.elems[i] != VNull ==>
            e.GetCustomProperty(NatStr(i), VNull) == e.customProperties.elems[i]
  {
    ListIndexOf(i);
  }

  /** A zero amount is no value, whatever its currency. */
  lemma ZeroIsNoValue(e: PixelEvent, c: CurrencyArg)
    requires Zero(c).Ok? && e.value == Some(Zero(c).value)
    ensures !e.HasValue()
  {
  }
}
