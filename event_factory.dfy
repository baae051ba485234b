/** Turns a normalised event DTO into a domain event: the type must be
    known; a bad amount, currency or page URL is dropped silently. */
module Factory {
  import opened Php
  import opened Foreign
  import opened EventTypes
  import opened MoneyValues
  import opened Urls
  import opened Customers
  import opened Events
  import opened Dtos

  /** The event's value: only when an amount and a non-empty currency are
      given, and only when `Money::from` accepts them (its exceptions are
      caught and ignored). */
  function ValueOf(amount: Option<real>, currency: Option<string>): (r: Option<Money>)
    ensures r.Some? ==> amount.Some? && currency.Some? && !EmptyStr(currency.value)
    ensures r.Some? ==> r.value.amount == amount.value && r.value.amount >= 0.0
    ensures r.Some? ==> Currencies.FromString(currency.value) == Ok(r.value.currency)
  {
    if amount.Some? && currency.Some? && !EmptyStr(currency.value) then
      var m := MoneyValues.From(amount.value, Code(currency.value));
      if m.Ok? then Some(m.value) else None
    else None
  }

  /** The event's page URL: only a non-empty one that `Url::fromString`
      accepts. */
  function PageUrlOf(pageUrl: Option<string>, isUrl: string -> bool): (r: Option<Url>)
    ensures r.Some? ==> pageUrl.Some? && r.value.value == Trim(pageUrl.value)
    ensures r.Some? ==> HasHttpScheme(r.value.value) && isUrl(r.value.value)
  {
    if pageUrl.Some? && !EmptyStr(pageUrl.value) then
      var u := Urls.FromString(pageUrl.value, isUrl);
      if u.Ok? then Some(u.value) else None
    else None
  }

  /** The event's customer: the DTO's customer normalised through its own
      array, or the empty customer. */
  function CustomerOf(customer: Option<CustomerDto>, o: Oracles): (r: Result<CustomerData>)
    ensures customer.None? ==> r == Ok(Customers.Empty)
  {
    if customer.Some? then FromRecord(CustomerToArray(customer.value), o) else Ok(Customers.Empty)
  }

  /** The event `createFromDTO` builds once the type is known. */
  function Build(t: EventType, dto: EventDto, o: Oracles, freshId: string, now: int): (r: Result<PixelEvent>)
    requires dto.items.IsArray() && dto.customProperties.IsArray()
  {
    var customer :- CustomerOf(dto.customer, o);
    Ok(Create(freshId, now, t, customer, dto.items, ValueOf(dto.value, dto.currency),
      PageUrlOf(dto.pageUrl, o.isUrl), dto.customProperties, dto.transactionId, dto.orderId,
      dto.shipping, dto.searchTerm))
  }

  /** `createFromDTO` as the source writes it: `new DomainException(...)`
      on an abstract class, which PHP refuses with an `\Error` instead of
      throwing the intended exception. */
  function CreateFromDtoAsWritten(dto: EventDto, o: Oracles, freshId: string, now: int): (r: Result<PixelEvent>)
    requires dto.items.IsArray() && dto.customProperties.IsArray()
    ensures TryFromString(dto.eventType).None? ==> r == Err(AbstractInstantiation("DomainException"))
    ensures TryFromString(dto.eventType).Some? ==> r == Build(TryFromString(dto.eventType).value, dto, o, freshId, now)
  {
    match TryFromString(dto.eventType)
    case None => Err(AbstractInstantiation("DomainException"))
    case Some(t) => Build(t, dto, o, freshId, now)
  }

  /** `createFromDTO` as intended: an unknown type is an invalid-event-type
      domain exception. */
  function CreateFromDto(dto: EventDto, o: Oracles, freshId: string, now: int): (r: Result<PixelEvent>)
    requires dto.items.IsArray() && dto.customProperties.IsArray()
    ensures r.Err? && !IsValid(dto.eventType) ==> r.error == InvalidEventType(dto.eventType)
    ensures r.Ok? ==> r.value.eventType.Value() == dto.eventType
    ensures r.Ok? ==> r.value.id == freshId && r.value.occurredAt == now
    ensures r.Ok? ==> r.value.items == dto.items && r.value.customProperties == dto.customProperties
    ensures r.Ok? ==> r.value.transactionId == dto.transactionId && r.value.orderId == dto.orderId
    ensures r.Ok? ==> r.value.shipping == dto.shipping && r.value.searchTerm == dto.searchTerm
    ensures r.Ok? ==> r.value.value == ValueOf(dto.value, dto.currency)
    ensures r.Ok? ==> r.value.pageUrl == PageUrlOf(dto.pageUrl, o.isUrl)
    ensures !IsValid(dto.eventType) ==> r.Err?
  {
    match TryFromString(dto.eventType)
    case None => Err(InvalidEventType(dto.eventType))
    case Some(t) => Build(t, dto, o, freshId, now)
  }

  /** `createFromArray`: the DTO's normalisation, then `createFromDTO`. */
  function CreateFromArray(data: Record, o: Oracles, freshId: string, now: int): (r: Result<PixelEvent>)
    ensures EventFromArray(data).Err? ==> r == Err(EventFromArray(data).error)
    ensures EventFromArray(data).Ok? ==> r == CreateFromDto(EventFromArray(data).value, o, freshId, now)
  {
    var dto :- EventFromArray(data);
    CreateFromDto(dto, o, freshId, now)
  }

  /** The same function, as written. */
  function CreateFromArrayAsWritten(data: Record, o: Oracles, freshId: string, now: int): (r: Result<PixelEvent>)
    ensures EventFromArray(data).Err? ==> r == Err(EventFromArray(data).error)
    ensures EventFromArray(data).Ok? ==> r == CreateFromDtoAsWritten(EventFromArray(data).value, o, freshId, now)
  {
    var dto :- EventFromArray(data);
    CreateFromDtoAsWritten(dto, o, freshId, now)
  }

  // ------------------------------------------------------------ properties

  /** The two versions differ only in what an unknown type raises. */
  lemma AsWrittenAgrees(dto: EventDto, o: Oracles, freshId: string, now: int)
    requires dto.items.IsArray() && dto.customProperties.IsArray()
    ensures IsValid(dto.eventType) ==>
      CreateFromDtoAsWritten(dto, o, freshId, now) == CreateFromDto(dto, o, freshId, now)
    ensures !IsValid(dto.eventType) ==>
      CreateFromDtoAsWritten(dto, o, freshId, now).Err? && CreateFromDto(dto, o, freshId, now).Err?
  {
  }

  /** An unknown type as written raises an `\Error`, which `catch
      (\Exception)` does not intercept; as intended it raises an exception. */
  lemma UnknownTypeIsNotAnException(data: Record, o: Oracles, freshId: string, now: int)
    requires data == map["event_type" := VStr("foo")]
    ensures CreateFromArrayAsWritten(data, o, freshId, now) == Err(AbstractInstantiation("DomainException"))
    ensures !CreateFromArrayAsWritten(data, o, freshId, now).error.IsException()
    ensures CreateFromArray(data, o, freshId, now) == Err(InvalidEventType("foo"))
    ensures CreateFromArray(data, o, freshId, now).error.IsException()
  {
    var dto := EventFromArray(data);
    assert dto.Ok? && dto.value.eventType == "foo";
    assert "foo" !in EventTypes.Values() by { EventTypes.ValuesLiteral(); }
  }

  /** The DTO's own event id plays no part: every call gets the fresh id. */
  lemma EventIdIgnored(dto: EventDto, id: Option<string>, o: Oracles, freshId: string, now: int)
    requires dto.items.IsArray() && dto.customProperties.IsArray()
    ensures CreateFromDto(dto.(eventId := id), o, freshId, now) == CreateFromDto(dto, o, freshId, now)
  {
  }

  /** A negative amount or an unknown currency leaves the event without a
      value instead of failing it. */
  lemma BadMoneyDropped(amount: real, currency: string)
    requires amount < 0.0 || Currencies.FromString(currency).Err?
    ensures ValueOf(Some(amount), Some(currency)) == None
  {
  }

  /** Amount and currency together give the value `Money::from` builds. */
  lemma GoodMoneyKept(amount: real, currency: string)
    requires amount >= 0.0 && !EmptyStr(currency) && Currencies.FromString(currency).Ok?
    ensures ValueOf(Some(amount), Some(currency)) == Some(Money(amount, Currencies.FromString(currency).value))
  {
  }

  /** A URL the validator refuses, or one without an http(s) scheme, is
      dropped instead of failing the event. */
  lemma BadUrlDropped(u: string, isUrl: string -> bool)
    requires !isUrl(Trim(u)) || !HasHttpScheme(Trim(u))
    ensures PageUrlOf(Some(u), isUrl) == None
  {
  }

  /** An event without a customer gets the empty customer. */
  lemma MissingCustomerIsEmpty(dto: EventDto, o: Oracles, freshId: string, now: int)
    requires dto.items.IsArray() && dto.customProperties.IsArray()
    requires dto.customer.None? && IsValid(dto.eventType)
    ensures CreateFromDto(dto, o, freshId, now).Ok?
    ensures CreateFromDto(dto, o, freshId, now).value.customer == Customers.Empty
  {
  }
}
