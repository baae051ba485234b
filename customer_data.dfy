/** The customer attached to an event, and the builder that normalises raw
    customer fields into it. Invalid optional fields are dropped, never
    reported. */
module Customers {
  import opened Php
  import opened Foreign
  import opened Emails
  import opened Phones
  import opened UserAgents

  /** An address accepted by the IP validator, kept trimmed. */
  datatype IpAddress = IpAddress(value: string)

  /** `IpAddress::fromString`. */
  function IpFromString(ip: string, isIp: string -> bool): (r: Result<IpAddress>)
    ensures r.Ok? <==> isIp(Trim(ip))
    ensures r.Ok? ==> r.value.value == Trim(ip)
  {
    if isIp(Trim(ip)) then Ok(IpAddress(Trim(ip))) else Err(InvalidIpAddress(ip))
  }

  datatype CustomerData = CustomerData(
    email: Option<Email>,
    phone: Option<Phone>,
    ipAddress: Option<IpAddress>,
    userAgent: Option<UserAgent>,
    externalId: Option<string>,
    firstName: Option<string>,
    lastName: Option<string>,
    gender: Option<string>,
    dateOfBirth: Option<Date>,
    city: Option<string>,
    state: Option<string>,
    countryCode: Option<string>,
    zipCode: Option<string>,
    fbc: Option<string>,
    fbp: Option<string>,
    customProperties: Value)

  /** What `build()` returns when no setter was called. */
  const Empty: CustomerData := CustomerData(None, None, None, None, None, None, None, None,
    None, None, None, None, None, None, None, VList([]))

  // ----------------------------------------------------- one setter each

  /** The guard `$x && !empty(trim($x))` of the validated setters. */
  predicate Present(x: Option<string>) {
    x.Some? && !EmptyStr(x.value) && !EmptyStr(Trim(x.value))
  }

  /** `email()`: a present address is parsed, and an invalid one becomes
      null; an absent one leaves the field as it was. */
  function EmailStep(cur: Option<Email>, x: Option<string>, isEmail: string -> bool): (r: Option<Email>)
    ensures !Present(x) ==> r == cur
    ensures Present(x) ==> r == (if Emails.FromString(x.value, isEmail).Ok? then Some(Emails.FromString(x.value, isEmail).value) else None)
  {
    if Present(x) then
      match Emails.FromString(x.value, isEmail)
      case Ok(e) => Some(e)
      case Err(_) => None
    else cur
  }

  /** `phone()`: like `email()`, through `Phone::fromParts`. */
  function PhoneStep(cur: Option<Phone>, x: Option<string>, code: string): (r: Option<Phone>)
    ensures !Present(x) ==> r == cur
    ensures Present(x) ==> r == (if FromParts(x.value, code).Ok? then Some(FromParts(x.value, code).value) else None)
  {
    if Present(x) then
      match FromParts(x.value, code)
      case Ok(p) => Some(p)
      case Err(_) => None
    else cur
  }

  /** `ipAddress()`: like `email()`, through `IpAddress::fromString`. */
  function IpStep(cur: Option<IpAddress>, x: Option<string>, isIp: string -> bool): (r: Option<IpAddress>)
    ensures !Present(x) ==> r == cur
    ensures Present(x) ==> r == (if isIp(Trim(x.value)) then Some(IpAddress(Trim(x.value))) else None)
  {
    if Present(x) then
      match IpFromString(x.value, isIp)
      case Ok(ip) => Some(ip)
      case Err(_) => None
    else cur
  }

  /** `userAgent()`: a present value is stored trimmed (it cannot fail). */
  function UserAgentStep(cur: Option<UserAgent>, x: Option<string>): (r: Option<UserAgent>)
    ensures !Present(x) ==> r == cur
    ensures Present(x) ==> r == Some(UserAgent(Trim(x.value)))
  {
    if Present(x) then Some(UserAgents.FromString(x.value)) else cur
  }

  /** `$x ? trim($x) : null`, the plain string setters. A blank string is
      truthy and gives '', only null, '' and '0' give null. */
  function TrimmedOrNull(x: Option<string>): (r: Option<string>)
    ensures r.None? <==> (x.None? || EmptyStr(x.value))
    ensures r.Some? ==> r.value == Trim(x.value)
  {
    if x.Some? && !EmptyStr(x.value) then Some(Trim(x.value)) else None
  }

  /** `countryCode()`: `$x ? strtoupper(trim($x)) : null`. */
  function UpperTrimmedOrNull(x: Option<string>): (r: Option<string>)
    ensures r.None? <==> (x.None? || EmptyStr(x.value))
    ensures r.Some? ==> r.value == Upper(Trim(x.value))
  {
    if x.Some? && !EmptyStr(x.value) then Some(Upper(Trim(x.value))) else None
  }

  /** `dateOfBirth()` for a string or null: a non-empty string is parsed and
      an unparsable one becomes null; anything else leaves the field. */
  function DateStep(cur: Option<Date>, x: Option<string>, parseDate: string -> Option<Date>): (r: Option<Date>)
    ensures (x.None? || EmptyStr(x.value)) ==> r == cur
    ensures x.Some? && !EmptyStr(x.value) ==> r == parseDate(x.value)
  {
    if x.Some? && !EmptyStr(x.value) then parseDate(x.value) else cur
  }

  /** The builder, whose setters assign its fields one at a time. */
  class CustomerDataBuilder {
    var email: Option<Email>
    var phone: Option<Phone>
    var ipAddress: Option<IpAddress>
    var userAgent: Option<UserAgent>
    var externalId: Option<string>
    var firstName: Option<string>
    var lastName: Option<string>
    var gender: Option<string>
    var dateOfBirth: Option<Date>
    var city: Option<string>
    var state: Option<string>
    var countryCode: Option<string>
    var zipCode: Option<string>
    var fbc: Option<string>
    var fbp: Option<string>
    var customProperties: Value

    /** The customer `build()` would return now. */
    function Current(): CustomerData
      reads this
    {
      CustomerData(email, phone, ipAddress, userAgent, externalId, firstName, lastName, gender,
        dateOfBirth, city, state, countryCode, zipCode, fbc, fbp, customProperties)
    }

    /** `CustomerData::builder()`: every field null, no custom properties. */
    constructor ()
      ensures Current() == Empty
    {
      email, phone, ipAddress, userAgent := None, None, None, None;
      externalId, firstName, lastName, gender := None, None, None, None;
      dateOfBirth, city, state, countryCode := None, None, None, None;
      zipCode, fbc, fbp, customProperties := None, None, None, VList([]);
    }

    method SetEmail(x: Option<string>, isEmail: string -> bool)
      modifies this
      ensures Current() == old(Current()).(email := EmailStep(old(email), x, isEmail))
    {
      if Present(x) {
        var r := Emails.FromString(x.value, isEmail);
        if r.Ok? { email := Some(r.value); } else { email := None; }
      }
    }

    method SetPhone(x: Option<string>, code: string)
      modifies this
      ensures Current() == old(Current()).(phone := PhoneStep(old(phone), x, code))
    {
      if Present(x) {
        var r := FromParts(x.value, code);
        if r.Ok? { phone := Some(r.value); } else { phone := None; }
      }
    }

    method SetIpAddress(x: Option<string>, isIp: string -> bool)
      modifies this
      ensures Current() == old(Current()).(ipAddress := IpStep(old(ipAddress), x, isIp))
    {
      if Present(x) {
        var r := IpFromString(x.value, isIp);
        if r.Ok? { ipAddress := Some(r.value); } else { ipAddress := None; }
      }
    }

    method SetUserAgent(x: Option<string>)
      modifies this
      ensures Current() == old(Current()).(userAgent := UserAgentStep(old(userAgent), x))
    {
      if Present(x) {
        userAgent := Some(UserAgents.FromString(x.value));
      }
    }

    method SetExternalId(x: Option<string>)
      modifies this
      ensures Current() == old(Current()).(externalId := TrimmedOrNull(x))
    {
      externalId := TrimmedOrNull(x);
    }

    method SetFirstName(x: Option<string>)
      modifies this
      ensures Current() == old(Current()).(firstName := TrimmedOrNull(x))
    {
      firstName := TrimmedOrNull(x);
    }

    method SetLastName(x: Option<string>)
      modifies this
      ensures Current() == old(Current()).(lastName := TrimmedOrNull(x))
    {
      lastName := TrimmedOrNull(x);
    }

    method SetGender(x: Option<string>)
      modifies this
      ensures Current() == old(Current()).(gender := TrimmedOrNull(x))
    {
      gender := TrimmedOrNull(x);
    }

    method SetDateOfBirth(x: Option<string>, parseDate: string -> Option<Date>)
      modifies this
      ensures Current() == old(Current()).(dateOfBirth := DateStep(old(dateOfBirth), x, parseDate))
    {
      if x.Some? && !EmptyStr(x.value) {
        dateOfBirth := parseDate(x.value);
      }
    }

    method SetCity(x: Option<string>)
      modifies this
      ensures Current() == old(Current()).(city := TrimmedOrNull(x))
    {
      city := TrimmedOrNull(x);
    }

    method SetState(x: Option<string>)
      modifies this
      ensures Current() == old(Current()).(state := TrimmedOrNull(x))
    {
      state := TrimmedOrNull(x);
    }

    method SetCountryCode(x: Option<string>)
      modifies this
      ensures Current() == old(Current()).(countryCode := UpperTrimmedOrNull(x))
    {
      countryCode := UpperTrimmedOrNull(x);
    }

    method SetZipCode(x: Option<string>)
      modifies this
      ensures Current() == old(Current()).(zipCode := TrimmedOrNull(x))
    {
      zipCode := TrimmedOrNull(x);
    }

    method SetFbc(x: Option<string>)
      modifies this
      ensures Current() == old(Current()).(fbc := TrimmedOrNull(x))
    {
      fbc := TrimmedOrNull(x);
    }

    method SetFbp(x: Option<string>)
      modifies this
      ensures Current() == old(Current()).(fbp := TrimmedOrNull(x))
    {
      fbp := TrimmedOrNull(x);
    }

    method SetCustomProperties(props: Value)
      requires props.IsArray()
      modifies this
      ensures Current() == old(Current()).(customProperties := props)
    {
      customProperties := props;
    }

    /** `build()` hands out the current field values. */
    method Build() returns (c: CustomerData)
      ensures c == Current()
    {
      c := CustomerData(email, phone, ipAddress, userAgent, externalId, firstName, lastName,
        gender, dateOfBirth, city, state, countryCode, zipCode, fbc, fbp, customProperties);
    }
  }

  // ---------------------------------------------------------- fromArray

  /** The raw arguments `fromArray` passes to the setters, after the strict
      type checks of their parameters. */
  datatype CustomerArgs = CustomerArgs(
    email: Option<string>, phone: Option<string>, phoneCode: string, ip: Option<string>,
    userAgent: Option<string>, externalId: Option<string>, firstName: Option<string>,
    lastName: Option<string>, gender: Option<string>, dateOfBirth: Option<string>,
    city: Option<string>, state: Option<string>, countryCode: Option<string>,
    zipCode: Option<string>, fbc: Option<string>, fbp: Option<string>, custom: Value)

  function Opt(data: Record, k: string): Result<Option<string>> {
    AsNullableString(Lookup(data, k), k)
  }

  /** Reads the keys `fromArray` uses; `phone_code` defaults to '' and
      `custom` to []. A value of the wrong type is a TypeError. */
  function ArgsOf(data: Record): (r: Result<CustomerArgs>)
    ensures r.Err? ==> r.error.TypeError?
    ensures r.Ok? ==> r.value.phoneCode == (if IsSet(data, "phone_code") && data["phone_code"].VStr? then data["phone_code"].s else "")
    ensures r.Ok? ==> r.value.custom == (if IsSet(data, "custom") then data["custom"] else VList([]))
    ensures r.Ok? ==> r.value.custom.IsArray()
    ensures r.Ok? ==> r.value.email == (if IsSet(data, "email") && data["email"].VStr? then Some(data["email"].s) else None)
  {
    var email :- Opt(data, "email");
    var phone :- Opt(data, "phone");
    var code :- AsString(Coalesce(Lookup(data, "phone_code"), VStr("")), "countryCode");
    var ip :- Opt(data, "ip_address");
    var ua :- Opt(data, "user_agent");
    var ext :- Opt(data, "external_id");
    var fn :- Opt(data, "first_name");
    var ln :- Opt(data, "last_name");
    var ge :- Opt(data, "gender");
    var dob :- Opt(data, "date_of_birth");
    var ct :- Opt(data, "city");
    var st :- Opt(data, "state");
    var cc :- Opt(data, "country_code");
    var zp :- Opt(data, "zip_code");
    var fbc :- Opt(data, "fbc");
    var fbp :- Opt(data, "fbp");
    var custom :- AsArray(Coalesce(Lookup(data, "custom"), VList([])), "properties");
    Ok(CustomerArgs(email, phone, code, ip, ua, ext, fn, ln, ge, dob, ct, st, cc, zp, fbc, fbp, custom))
  }

  /** The customer the setter chain of `fromArray` builds from its
      arguments, starting from the empty builder. */
  function FromArgs(a: CustomerArgs, o: Oracles): CustomerData {
    CustomerData(
      EmailStep(None, a.email, o.isEmail),
      PhoneStep(None, a.phone, a.phoneCode),
      IpStep(None, a.ip, o.isIp),
      UserAgentStep(None, a.userAgent),
      TrimmedOrNull(a.externalId),
      TrimmedOrNull(a.firstName),
      TrimmedOrNull(a.lastName),
      TrimmedOrNull(a.gender),
      DateStep(None, a.dateOfBirth, o.parseDate),
      TrimmedOrNull(a.city),
      TrimmedOrNull(a.state),
      UpperTrimmedOrNull(a.countryCode),
      TrimmedOrNull(a.zipCode),
      TrimmedOrNull(a.fbc),
      TrimmedOrNull(a.fbp),
      a.custom)
  }

  /** `CustomerData::fromArray` as a value: the arguments' type checks, then
      the setter chain. */
  function FromRecord(data: Record, o: Oracles): Result<CustomerData> {
    var a :- ArgsOf(data);
    Ok(FromArgs(a, o))
  }

  /** `CustomerData::fromArray`: a fresh builder, one call per setter, then
      `build()`. */
  method FromArray(data: Record, o: Oracles) returns (r: Result<CustomerData>)
    ensures r == FromRecord(data, o)
  {
    var args := ArgsOf(data);
    if args.Err? {
      return Err(args.error);
    }
    var a := args.value;
    var b := new CustomerDataBuilder();
    b.SetEmail(a.email, o.isEmail);
    b.SetPhone(a.phone, a.phoneCode);
    b.SetIpAddress(a.ip, o.isIp);
    b.SetUserAgent(a.userAgent);
    b.SetExternalId(a.externalId);
    b.SetFirstName(a.firstName);
    b.SetLastName(a.lastName);
    b.SetGender(a.gender);
    b.SetDateOfBirth(a.dateOfBirth, o.parseDate);
    b.SetCity(a.city);
    b.SetState(a.state);
    b.SetCountryCode(a.countryCode);
    b.SetZipCode(a.zipCode);
    b.SetFbc(a.fbc);
    b.SetFbp(a.fbp);
    b.SetCustomProperties(a.custom);
    var c := b.Build();
    r := Ok(c);
  }

  // ------------------------------------------------------------ properties

  /** An address the validator refuses is dropped; the build still succeeds. */
  lemma InvalidEmailDropped(data: Record, o: Oracles)
    requires FromRecord(data, o).Ok?
    requires IsSet(data, "email") && !o.isEmail(Emails.Normalize(data["email"].s))
    ensures FromRecord(data, o).value.email.None?
  {
  }

  /** A rejected phone number is dropped; the build still succeeds. */
  lemma InvalidPhoneDropped(a: CustomerArgs, o: Oracles)
    requires a.phone.Some? && FromParts(a.phone.value, a.phoneCode).Err?
    ensures FromArgs(a, o).phone.None?
  {
  }

  /** A rejected IP address is dropped; the build still succeeds. */
  lemma InvalidIpDropped(a: CustomerArgs, o: Oracles)
    requires a.ip.Some? && !o.isIp(Trim(a.ip.value))
    ensures FromArgs(a, o).ipAddress.None?
  {
  }

  /** Plain string fields are trimmed; only null, '' and '0' give null. */
  lemma PlainFieldsTrimmed(a: CustomerArgs, o: Oracles)
    ensures var c := FromArgs(a, o);
      (c.city.Some? <==> a.city.Some? && !EmptyStr(a.city.value)) &&
      (c.city.Some? ==> c.city.value == Trim(a.city.value)) &&
      (c.firstName.Some? ==> c.firstName.value == Trim(a.firstName.value)) &&
      (c.countryCode.Some? ==> c.countryCode.value == Upper(Trim(a.countryCode.value)))
  {
  }

  /** A blank (whitespace-only) string is truthy, so it is kept as ''. */
  lemma BlankStringKept()
    ensures TrimmedOrNull(Some("  ")) == Some("")
  {
    assert TrimLeft("  ") == TrimLeft(" ") == TrimLeft("");
  }

  /** An empty array gives the all-null customer with no custom properties. */
  lemma EmptyArrayGivesEmpty(o: Oracles)
    ensures FromRecord(map[], o) == Ok(Empty)
  {
  }

  lemma UpperTr()
    ensures Upper("tr") == "TR"
  {
    var u := Upper("tr");
    assert u[0] == 'T' && u[1] == 'R';
  }

  /** The trimmed country code is upper-cased: " tr " gives "TR". */
  lemma CountryCodeUpper()
    ensures UpperTrimmedOrNull(Some(" tr ")) == Some("TR")
  {
    assert " tr " == " " + "tr" + " ";
    TrimPadded("tr");
    UpperTr();
  }
}
