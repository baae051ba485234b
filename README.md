# Pixel manager, modelled and verified in Dafny

The pixel manager is a PHP package for server-side tracking. An application
reports a customer event, such as a purchase, a page view or an
add-to-cart. The package validates the event and turns it into a domain
event. It works out which advertising platforms the event type is mapped
to and which of those the application has credentials for. It then sends
the event to each one: Meta, Google Analytics 4, TikTok, Pinterest,
Snapchat and Brevo. Each gets an HTTP payload in that platform's own
format.

This project models the package's core and proves properties of the model.

- **Value objects** (`Php`, `Emails`, `Phones`, `Urls`, `UserAgents`,
  `MoneyValues`, `Currencies`, `EventTypes`, `PlatformTypes`,
  `PinterestEnvironments`): normalisation, validation, hashing and
  equality, with their error cases.
- **Domain events and entities** (`Customers`, `Events`,
  `PixelCredentials`, `Entities`): customer data, the pixel event, the
  per-platform credentials, the credential-holding application and the
  platform entity.
- **Application layer** (`Dtos`, `Factory`, `Config`, `Selection`,
  `Distribution`, `Tracking`): array to DTO parsing, the event factory,
  the configuration service, platform selection, the event distributor and
  the track-pixel-event use case. The skip rules are modelled: bot
  traffic, disabled tracking, unmapped types and missing credentials.
- **HTTP adapters** (`Responses`, `HttpAdapters`, `Payloads`,
  `MetaPlatformAdapter`, `GooglePlatformAdapter`,
  `TikTokPlatformAdapter`, `PinterestPlatformAdapter`,
  `SnapchatPlatformAdapter`, `BrevoPlatformAdapter`): endpoints, headers
  and payload layouts, plus how each HTTP outcome is classified as a
  response.
- **Decorators and the adapter factory** (`Decorators`, `AdapterClasses`,
  `AdapterFactory`): logging, rate limiting, the circuit breaker and
  retries as a chain around a base adapter. The chain is stated once as a
  function over the cache, the call count, the back-off delays and the
  log, and the `Runtime` class that runs it is proved to agree with that
  function. The factory builds chains in the order the service provider
  adds decorators.
- **Infrastructure** (`CredentialCache`, `CredentialsMapping`,
  `CredentialsEncryption`, `BotDetection`):
  - the caching credentials repository;
  - the mapper between credentials and the flat stored array;
  - the encryptor of secret fields;
  - the user-agent bot detector.
- **Presentation and legacy code** (`Facade`, `LaravelConfig`,
  `LegacyListener`, `LegacyManager`): the facade, and the older listener
  and manager that read Laravel configuration and queue one job per
  platform.

Code that works on values is modelled as functions and lemmas. Objects
whose fields change are classes with `modifies` clauses, and each of their
methods is proved against a specification function. Loops in the source
are methods with loop invariants. Effects the source has on the outside
world are recorded as traces in the model:

- log lines;
- saved event records;
- queued jobs;
- HTTP calls.

What the package gets from code outside it becomes a parameter:

- `Oracles`: `filter_var` for e-mail, URL and IP validation, parsing by
  `DateTimeImmutable`, and `hash('sha256', …)`.
- The encrypter used by the credentials encryptor, given as a `Cipher`.
- What an HTTP call gives back, given as an `HttpOutcome`, or for the
  decorator chain a `Network` that maps each call number to its outcome.
- The clock (`now`), a fresh event id (`freshId`), and what a database
  query or a repository finds.
- PHP's conversion of a non-string scalar to a string (`cast`).
- Whether inserting the legacy log record fails.

A PHP array is a `Value`: a list (`VList`) or a string-keyed dictionary
(`VDict`). PHP's falsy string test, `empty`, holds for `''` and `'0'`.

## Model

| member | source | states |
|---|---|---|
| PlatformTypes.Values | src/Domain/ValueObjects/PlatformType.php:26-29 | one backing value per case, in declaration order (six of them) |
| PlatformTypes.TryFromString | src/Domain/ValueObjects/PlatformType.php:37-40 | a case is found exactly for one of the six values, and it is the case backed by that value |
| PlatformTypes.From | src/Domain/ValueObjects/PlatformType.php:14-19 | the enum's `from`: the case backed by the value, or a ValueError for any other string |
| PlatformTypes.IsValidIff | src/Domain/ValueObjects/PlatformType.php:48-51 | `isValid` holds exactly for the six backing values |
| PlatformTypes.ValuesLiteral | src/Domain/ValueObjects/PlatformType.php:14-19 | the values are meta, google, tiktok, pinterest, snapchat, brevo, in that order |
| PlatformTypes.TryFromValue | src/Domain/ValueObjects/PlatformType.php:37-40 | parsing a case's own value gives that case back |
| PlatformTypes.ValueInjective | src/Domain/ValueObjects/PlatformType.php:14-19 | no two cases share a backing value |
| PlatformTypes.CasesComplete | src/Domain/ValueObjects/PlatformType.php:14-19 | the case list holds every case |
| PlatformTypes.DisplayNameInjective | src/Domain/ValueObjects/PlatformType.php:58-68 | no two platforms share a display name |
| PlatformTypes.ValueHasNoUnderscore | src/Domain/ValueObjects/PlatformType.php:14-19 | no backing value contains an underscore, so a `meta_...` key names exactly one platform |
| EventTypes.Values | src/Domain/ValueObjects/EventType.php:33-36 | one backing value per case, in declaration order (twelve of them) |
| EventTypes.TryFromString | src/Domain/ValueObjects/EventType.php:44-47 | a case is found exactly for one of the twelve values, and it is the case backed by that value |
| EventTypes.IsValidIff | src/Domain/ValueObjects/EventType.php:55-58 | `isValid` holds exactly for the twelve backing values |
| EventTypes.IsValidIffSomeCase | src/Domain/ValueObjects/EventType.php:55-58 | `isValid(s)` holds exactly when some case is backed by `s` |
| EventTypes.ValuesLiteral | src/Domain/ValueObjects/EventType.php:15-26 | the twelve values, in declaration order |
| EventTypes.TryFromValue | src/Domain/ValueObjects/EventType.php:44-47 | parsing a case's own value gives that case back |
| EventTypes.ValueInjective | src/Domain/ValueObjects/EventType.php:15-26 | no two cases share a backing value |
| EventTypes.CasesDistinct | src/Domain/ValueObjects/EventType.php:15-26 | the case list has twelve distinct entries |
| EventTypes.CasesComplete | src/Domain/ValueObjects/EventType.php:15-26 | the case list holds every case |
| PinterestEnvironments.BaseUrl | src/Domain/ValueObjects/PinterestEnvironment.php:42-48 | each environment's API base is an `https://api` address |
| PinterestEnvironments.BaseUrls | src/Domain/ValueObjects/PinterestEnvironment.php:42-48 | the sandbox and production bases are the two documented hosts, and they differ |
| PinterestEnvironments.ExactlyOne | src/Domain/ValueObjects/PinterestEnvironment.php:22-35 | an environment is production or sandbox, never both |
| PinterestEnvironments.From | src/Domain/ValueObjects/PinterestEnvironment.php:14-15 | the enum's `from` under strict types: accepts exactly 'sandbox' and 'production'; another string is a ValueError naming it; the enum is string-backed, so an integer or any other non-string is a TypeError |
| PinterestEnvironments.FromValue | src/Domain/ValueObjects/PinterestEnvironment.php:14-15 | parsing an environment's own value gives it back |
| Currencies.Codes | src/Domain/ValueObjects/Currency.php:16-46 | one ISO code per case, in declaration order (31 of them) |
| Currencies.TryFrom | src/Domain/ValueObjects/Currency.php:57 | a currency is found exactly for one of the 31 codes, and it is the one with that code |
| Currencies.FromString | src/Domain/ValueObjects/Currency.php:55-64 | succeeds exactly when the trimmed, upper-cased code is one of the 31; otherwise an InvalidCurrencyException naming the input as given |
| Currencies.FromStringValue | src/Domain/ValueObjects/Currency.php:55-64 | every currency's own code parses back to it |
| Currencies.FromStringLoose | src/Domain/ValueObjects/Currency.php:57 | surrounding blanks and lower case are accepted: ' usd ' is USD |
| Currencies.FromStringUnknown | src/Domain/ValueObjects/Currency.php:59-61 | a code outside the enum (AZN) is rejected with its name |
| Currencies.NormalizeCode | src/Domain/ValueObjects/Currency.php:57 | normalising a currency's code leaves it unchanged |
| Currencies.CodeIsUpperLetters | src/Domain/ValueObjects/Currency.php:16-46 | every code is three upper-case letters |
| Currencies.ValueInjective | src/Domain/ValueObjects/Currency.php:16-46 | no two currencies share a code |
| Currencies.CasesComplete | src/Domain/ValueObjects/Currency.php:16-46 | the case list holds every currency |
| Currencies.Symbols | src/Domain/ValueObjects/Currency.php:71-86 | USD, EUR and GBP have their signs; a currency without one (CHF, PLN) shows its code |
| MoneyValues.ResolveCurrency | src/Domain/ValueObjects/Money.php:36 | a currency object is used as it is, a string goes through `Currency::fromString` |
| MoneyValues.From | src/Domain/ValueObjects/Money.php:30-39 | a negative amount is an InvalidMoneyException (checked before the currency); otherwise the money exactly when the currency resolves |
| MoneyValues.Zero | src/Domain/ValueObjects/Money.php:47-51 | zero of the resolved currency, or the currency's error |
| MoneyValues.ZeroIsZero | src/Domain/ValueObjects/Money.php:58-71 | zero money is zero and not positive |
| MoneyValues.SubCentIsZeroAndPositive | src/Domain/ValueObjects/Money.php:58-71 | half a cent is both "zero" (below 0.01) and positive: the two tests overlap |
| MoneyValues.FromUnknownCode | src/Domain/ValueObjects/Money.php:36 | an unknown currency code passes the exception of `fromString` through |
| MoneyValues.CurrencyCodeRoundTrip | src/Domain/ValueObjects/Money.php:88-91 | building money from its amount and its currency code gives it back, unless the amount is negative |
| Phones.CleanCountryCode | src/Domain/ValueObjects/Phone.php:40-43 | a trimmed code that is non-empty, not "0" and lacks a leading '+' gets one; any other trimmed code is kept |
| Phones.FromParts | src/Domain/ValueObjects/Phone.php:30-51 | the digits of the number are kept; no digits is a NoDigits error, fewer than 6 or more than 15 a BadLength error, otherwise a phone with the cleaned code |
| Phones.FromPartsShape | src/Domain/ValueObjects/Phone.php:30-51 | an accepted number is 6 to 15 digits and its code is empty, "0" or starts with '+' |
| Phones.NoDigitsRejected | src/Domain/ValueObjects/Phone.php:35-37 | a number without digits is refused with the empty-number error, whatever the code |
| Phones.FromPartsDigitsOnly | src/Domain/ValueObjects/Phone.php:33 | an accepted number is exactly the digits of the input, separators dropped |
| Phones.DigitsAndPlus | src/Domain/ValueObjects/Phone.php:67 | the cleaned number keeps only digits and '+', is no longer than the input and keeps a leading '+' |
| Phones.SplitInternational | src/Domain/ValueObjects/Phone.php:67 | the pattern matches exactly '+' and two or more digits; the code takes 1-4 digits, the rest (at least one) is the number, and the code is short only when one digit is left |
| Phones.FromFullNumber | src/Domain/ValueObjects/Phone.php:60-78 | input without a leading '+' goes to `fromParts` with an empty code; with '+', a match gives code '+'+group 1 and number group 2, no match a BadFormat error |
| Phones.InternationalFullNumber | src/Domain/ValueObjects/Phone.php:60-78 | a '+' number parses to a phone whose full number is the cleaned input, with a code of 2-5 characters |
| Phones.ShortInternationalAccepted | src/Domain/ValueObjects/Phone.php:67-73 | the '+' route has no length check: "+12" is accepted as code "+1", number "2" |
| Phones.GreedyCountryCode | src/Domain/ValueObjects/Phone.php:67 | the code group is greedy: "+905551234567" gives code "9055" |
| Phones.RenderingsAgree | src/Domain/ValueObjects/Phone.php:96-119 | `fullNumber`, `formatted` and `toString` are all code followed by number |
| Phones.HashByFullNumber | src/Domain/ValueObjects/Phone.php:86-89 | two phones with the same full number hash alike |
| Emails.Email.Domain | src/Domain/ValueObjects/Email.php:66-69 | with an '@', the domain is everything after the first one |
| Emails.Email.LocalPart | src/Domain/ValueObjects/Email.php:76-79 | with an '@', the local part is found and holds no '@'; without one `substr` gets `false` and fails |
| Emails.FromString | src/Domain/ValueObjects/Email.php:29-38 | accepted exactly when the validator accepts the trimmed lower-cased input, which is stored; otherwise an InvalidEmail error naming the original input |
| Emails.NormalizeIdempotent | src/Domain/ValueObjects/Email.php:31 | normalising twice is normalising once |
| Emails.ReparseStable | src/Domain/ValueObjects/Email.php:29-38 | parsing a stored address again gives the same address |
| Emails.PartsJoin | src/Domain/ValueObjects/Email.php:66-79 | local part, '@' and domain join back into the address |
| Emails.HashByNormalForm | src/Domain/ValueObjects/Email.php:31-48 | inputs that differ only in case and surrounding blanks are both accepted and hash alike |
| Urls.FromString | src/Domain/ValueObjects/Url.php:28-42 | accepted exactly when the validator accepts the trimmed input and it starts with http:// or https://; the trimmed input is stored; otherwise an InvalidUrl error naming the input |
| Urls.SecureIffNotHttp | src/Domain/ValueObjects/Url.php:69-82 | a parsed URL is secure exactly when it is not plain http |
| Urls.ReparseStable | src/Domain/ValueObjects/Url.php:28-42 | parsing a stored URL again gives the same URL |
| UserAgents.FromString | src/Domain/ValueObjects/UserAgent.php:25-28 | the stored value is the trimmed input |
| UserAgents.IsMobileIff | src/Domain/ValueObjects/UserAgent.php:47-63 | mobile exactly when the lower-cased value contains one of the eight mobile keywords |
| UserAgents.IsBotIff | src/Domain/ValueObjects/UserAgent.php:70-86 | a bot exactly when the lower-cased value contains one of the eight bot patterns |
| UserAgents.CaseInsensitive | src/Domain/ValueObjects/UserAgent.php:47-86 | upper-casing the value changes neither classification |
| UserAgents.ToStringIsTrimmed | src/Domain/ValueObjects/UserAgent.php:25-28 | the string form of a parsed agent is the trimmed input |
| Customers.IpFromString | src/Domain/ValueObjects/IpAddress.php:29-44 | accepted exactly when the validator accepts the trimmed input, which is stored |
| Customers.EmailStep | src/Domain/ValueObjects/CustomerData.php:98-109 | an absent, empty or blank address leaves the field as it was; a present one is parsed, and an invalid one becomes null |
| Customers.PhoneStep | src/Domain/ValueObjects/CustomerData.php:111-122 | an absent or blank number leaves the field; a present one goes through `fromParts` with the code, and a rejected one becomes null |
| Customers.IpStep | src/Domain/ValueObjects/CustomerData.php:124-135 | an absent or blank address leaves the field; a present one is kept trimmed when the validator accepts it, otherwise null |
| Customers.UserAgentStep | src/Domain/ValueObjects/CustomerData.php:137-143 | an absent or blank agent leaves the field; a present one is stored trimmed |
| Customers.TrimmedOrNull | src/Domain/ValueObjects/CustomerData.php:145-166 | null exactly for null, '' and '0' (PHP falsiness); otherwise the trimmed string |
| Customers.UpperTrimmedOrNull | src/Domain/ValueObjects/CustomerData.php:196-200 | null exactly for null, '' and '0'; otherwise the trimmed string upper-cased |
| Customers.DateStep | src/Domain/ValueObjects/CustomerData.php:169-182 | null or an empty string leaves the field; any other string is what the date parser gives, a failed parse being null |
| Customers.CustomerDataBuilder.constructor | src/Domain/ValueObjects/CustomerData.php:79-96 | a new builder holds the all-null customer with empty custom properties |
| Customers.CustomerDataBuilder.SetEmail | src/Domain/ValueObjects/CustomerData.php:98-109 | only the e-mail field changes, as `EmailStep` says |
| Customers.CustomerDataBuilder.SetPhone | src/Domain/ValueObjects/CustomerData.php:111-122 | only the phone field changes, as `PhoneStep` says |
| Customers.CustomerDataBuilder.SetIpAddress | src/Domain/ValueObjects/CustomerData.php:124-135 | only the IP field changes, as `IpStep` says |
| Customers.CustomerDataBuilder.SetUserAgent | src/Domain/ValueObjects/CustomerData.php:137-143 | only the user-agent field changes, as `UserAgentStep` says |
| Customers.CustomerDataBuilder.SetExternalId | src/Domain/ValueObjects/CustomerData.php:145-149 | only the external id changes, to the trimmed value or null |
| Customers.CustomerDataBuilder.SetFirstName | src/Domain/ValueObjects/CustomerData.php:151-155 | only the first name changes, to the trimmed value or null |
| Customers.CustomerDataBuilder.SetLastName | src/Domain/ValueObjects/CustomerData.php:157-161 | only the last name changes, to the trimmed value or null |
| Customers.CustomerDataBuilder.SetGender | src/Domain/ValueObjects/CustomerData.php:163-167 | only the gender changes, to the trimmed value or null |
| Customers.CustomerDataBuilder.SetDateOfBirth | src/Domain/ValueObjects/CustomerData.php:169-182 | only the date of birth changes, as `DateStep` says |
| Customers.CustomerDataBuilder.SetCity | src/Domain/ValueObjects/CustomerData.php:184-188 | only the city changes, to the trimmed value or null |
| Customers.CustomerDataBuilder.SetState | src/Domain/ValueObjects/CustomerData.php:190-194 | only the state changes, to the trimmed value or null |
| Customers.CustomerDataBuilder.SetCountryCode | src/Domain/ValueObjects/CustomerData.php:196-200 | only the country code changes, to the trimmed upper-cased value or null |
| Customers.CustomerDataBuilder.SetZipCode | src/Domain/ValueObjects/CustomerData.php:202-206 | only the zip code changes, to the trimmed value or null |
| Customers.CustomerDataBuilder.SetFbc | src/Domain/ValueObjects/CustomerData.php:208-212 | only the click id changes, to the trimmed value or null |
| Customers.CustomerDataBuilder.SetFbp | src/Domain/ValueObjects/CustomerData.php:214-218 | only the browser id changes, to the trimmed value or null |
| Customers.CustomerDataBuilder.SetCustomProperties | src/Domain/ValueObjects/CustomerData.php:220-224 | only the custom properties change, to the given array |
| Customers.CustomerDataBuilder.Build | src/Domain/ValueObjects/CustomerData.php:226-244 | the customer built holds exactly the fields set so far |
| Customers.ArgsOf | src/Domain/ValueObjects/CustomerData.php:53-72 | a value of the wrong type for a setter is a TypeError; `phone_code` defaults to '' and `custom` to [], which must be an array |
| Customers.FromArray | src/Domain/ValueObjects/CustomerData.php:53-72 | the builder chain gives the customer `FromRecord` describes: the type checks, then each field's normalisation |
| Customers.InvalidEmailDropped | src/Domain/ValueObjects/CustomerData.php:100-106 | an address the validator refuses is dropped and the build still succeeds |
| Customers.InvalidPhoneDropped | src/Domain/ValueObjects/CustomerData.php:113-119 | a number `fromParts` refuses is dropped |
| Customers.InvalidIpDropped | src/Domain/ValueObjects/CustomerData.php:126-132 | an address the validator refuses is dropped |
| Customers.PlainFieldsTrimmed | src/Domain/ValueObjects/CustomerData.php:151-198 | plain fields are null exactly for null, '' and '0' and otherwise trimmed; the country code is also upper-cased |
| Customers.BlankStringKept | src/Domain/ValueObjects/CustomerData.php:186 | a blank string is truthy, so it is kept as '' rather than made null |
| Customers.EmptyArrayGivesEmpty | src/Domain/ValueObjects/CustomerData.php:53-72 | an empty array gives the all-null customer |
| Customers.CountryCodeUpper | src/Domain/ValueObjects/CustomerData.php:198 | " tr " is stored as "TR" |
| Responses.Success | src/Domain/Services/PlatformResponse.php:30-38 | a success response with no message, keeping the raw response and the instant |
| Responses.Failure | src/Domain/Services/PlatformResponse.php:47-55 | a failure response carrying the message, the raw response and the instant |
| Responses.SuccessXorFailure | src/Domain/Services/PlatformResponse.php:62-75 | every response is exactly one of success and failure |
| Responses.MessageIffFailure | src/Domain/Services/PlatformResponse.php:30-55 | a response built by either factory has a message exactly when it failed |
| Events.PixelEvent.GetCustomProperty | src/Domain/Entities/PixelEvent.php:266-269 | a missing key gives the default; a key set to a non-null value gives that value |
| Events.Reconstitute | src/Domain/Entities/PixelEvent.php:98-126 | every field of the event is the one given |
| Events.Create | src/Domain/Entities/PixelEvent.php:53-79 | `create` is `reconstitute` with a fresh id and the current instant |
| Events.CreateDefaults | src/Domain/Entities/PixelEvent.php:53-79 | an event created with only a type and a customer has no items, value, URL or custom properties, and is a purchase exactly for PURCHASE |
| Events.StoredNullReadsDefault | src/Domain/Entities/PixelEvent.php:254-269 | a property stored as null is present, yet reading it gives the default |
| Events.ListPropertiesByIndex | src/Domain/Entities/PixelEvent.php:254-269 | list-shaped custom properties answer to their decimal indices |
| Events.ZeroIsNoValue | src/Domain/Entities/PixelEvent.php:296-299 | an event whose value is zero money has no value |
| Dtos.CustomerFromArray | src/Application/DTOs/CustomerDTO.php:39-60 | a value of the wrong type for a constructor parameter is a TypeError; otherwise the phone code is set ('' by default) and the custom data is an array |
| Dtos.CustomerRoundTrip | src/Application/DTOs/CustomerDTO.php:39-88 | a customer with a phone code reads back from its `toArray` unchanged |
| Dtos.NullPhoneCodeReadsEmpty | src/Application/DTOs/CustomerDTO.php:44-72 | a null phone code does not survive the round trip: it is written as null and read back as '' |
| Dtos.ClientKeysFallback | src/Application/DTOs/CustomerDTO.php:45-46 | `client_ip_address` and `client_user_agent` are read only when the canonical key is unset |
| Dtos.ItemFromArray | src/Application/DTOs/ItemDTO.php:30-41 | a value of the wrong type is a TypeError; the quantity is the `(int)` cast of `quantity` (default 1), the price the `(float)` cast of `price`, then `item_price`, then 0; a numeric string is read after the leading whitespace PHP skips (form feed yes, NUL no), with its fraction and exponent, and `(int)` saturates at the 64-bit bounds (Php.StrToInt, Php.NumericSpaceSkipped, Php.LeadingNulNotNumeric) |
| Php.StrToInt | src/Application/DTOs/ItemDTO.php:36 | `(int)` of a string is the truncated value of its numeric prefix, read after space, tab, newline, carriage return, vertical tab and form feed, with fraction and exponent included, always within PHP_INT_MIN..PHP_INT_MAX and saturating at those bounds |
| Php.NatStrToInt | src/Application/DTOs/ItemDTO.php:36 | a decimal string reads back as its number up to PHP_INT_MAX, and as PHP_INT_MAX beyond |
| Php.PlainDigitsNumeral | src/Application/DTOs/ItemDTO.php:35 | `(float)` of a string of digits is their value |
| Php.NumericSpaceSkipped | src/Application/DTOs/ItemDTO.php:35-36 | a leading space, tab, newline, carriage return, vertical tab or form feed changes neither `(float)` nor `(int)` of a string |
| Php.LeadingNulNotNumeric | src/Application/DTOs/ItemDTO.php:35-36 | a string starting with NUL casts to 0 and 0.0, although `trim()` would strip that NUL |
| Php.ExponentNotation | src/Application/DTOs/EventDTO.php:45 | `(float)` of digits followed by `e<k>` is the digits' value times ten to the k, so "1e3" is 1000 |
| Php.ExponentToInt | src/Application/DTOs/ItemDTO.php:36 | `(int)` of digits followed by `e<k>` is that product, saturated at the 64-bit bounds |
| Dtos.ItemToArray | src/Application/DTOs/ItemDTO.php:49-61 | the array has exactly the eight canonical keys |
| Dtos.ItemRoundTrip | src/Application/DTOs/ItemDTO.php:30-61 | an item reads back from its `toArray` unchanged |
| Dtos.ItemDefaults | src/Application/DTOs/ItemDTO.php:30-41 | an empty array gives id '', name '', price 0, quantity 1 and no optional fields |
| Dtos.IntegerIdRejected | src/Application/DTOs/ItemDTO.php:33 | under strict types an integer `id` is refused by the `string` parameter |
| Dtos.CustomerArg | src/Application/DTOs/EventDTO.php:50 | no `customer` gives null; a set `customer` that is no array is a TypeError |
| Dtos.EventFromArray | src/Application/DTOs/EventDTO.php:37-54 | the type is `event_type`, else `event`, else ''; the name is `event`; `value` and `shipping` are read exactly when set, by the `(float)` cast, which skips the numeric-string whitespace (form feed yes, NUL no) and takes a numeric string's fraction and exponent (Php.ExponentNotation, Php.NumericSpaceSkipped, Php.LeadingNulNotNumeric); items and custom properties are arrays; a wrong type is a TypeError |
| Dtos.EventToArray | src/Application/DTOs/EventDTO.php:61-78 | the array has exactly the thirteen keys written out, the customer nested through its own `toArray` |
| Dtos.EventRoundTrip | src/Application/DTOs/EventDTO.php:37-78 | an event whose customer has a phone code reads back from its `toArray` unchanged |
| Dtos.EventReadIdempotent | src/Application/DTOs/EventDTO.php:37-78 | reading an array, writing it back and reading again gives the first reading |
| PixelCredentials.Credentials.Properties | src/Infrastructure/Persistence/MongoDB/Mappings/CredentialsMapper.php:81-85 | one entry per declared property, named in declaration order, as `get_object_vars` lists them |
| PixelCredentials.StringOrEmpty | src/Domain/ValueObjects/PixelCredentials/MetaCredentials.php:34-35 | an unset key reads as ''; a set key must hold a string (strict types) |
| PixelCredentials.EnvironmentFrom | src/Domain/ValueObjects/PixelCredentials/PinterestCredentials.php:35-37 | PRODUCTION when `pinterest_environment` is unset, otherwise what `PinterestEnvironment::from` makes of it |
| PixelCredentials.FromArray | src/Domain/ValueObjects/PixelCredentials/PinterestCredentials.php:33-44 | the record of the platform asked for, each field read from its prefixed key or ''; it fails exactly when a key holds a non-string or, for Pinterest, the environment is refused |
| PixelCredentials.MissingKeyInvalid | src/Domain/ValueObjects/PixelCredentials/MetaCredentials.php:26-37 | a settings array lacking one of the platform's keys never gives valid credentials |
| PixelCredentials.ValidIffFieldsPresent | src/Domain/ValueObjects/PixelCredentials/MetaCredentials.php:26-29 | credentials read from an array are valid exactly when every key the platform reads holds a non-empty string |
| PixelCredentials.PinterestDefaultsToProduction | src/Domain/ValueObjects/PixelCredentials/PinterestCredentials.php:35-37 | without `pinterest_environment` the environment is PRODUCTION |
| PixelCredentials.UnknownEnvironmentFails | src/Domain/ValueObjects/PixelCredentials/PinterestCredentials.php:36 | an environment string other than 'sandbox' and 'production' is a ValueError |
| PixelCredentials.FromArrayReadsBack | src/Domain/ValueObjects/PixelCredentials/PinterestCredentials.php:33-44 | an array holding each property under the platform's key (and the environment's value) reads back as the same record |
| PixelCredentials.EnumEnvironmentRejected | src/Domain/ValueObjects/PixelCredentials/PinterestCredentials.php:36 | an enum object under the environment key is a TypeError under strict types |
| PixelCredentials.NonStringEnvironmentRejected | src/Domain/ValueObjects/PixelCredentials/PinterestCredentials.php:36 | any set environment value that is no string, an integer included, is a TypeError under strict types |
| Entities.Without | src/Domain/Entities/ApplicationCredentials.php:97 | removing a key keeps every other key, and a list without repeats stays so |
| Entities.ConfiguredMembers | src/Domain/Entities/ApplicationCredentials.php:76-87 | with every credential stored under its own platform the listing succeeds and holds exactly the platforms with valid credentials |
| Entities.ConfiguredDistinct | src/Domain/Entities/ApplicationCredentials.php:76-87 | distinct keys list each platform at most once |
| Entities.ConfiguredKeysFrom | src/Domain/Entities/ApplicationCredentials.php:80-84 | every listed platform comes from a stored key |
| Entities.UnknownKeyFails | src/Domain/Entities/ApplicationCredentials.php:82 | valid credentials under a key that names no platform make the listing fail with a ValueError |
| Entities.ApplicationCredentials.constructor | src/Domain/Entities/ApplicationCredentials.php:21-25 | a new aggregate has the id and no credentials |
| Entities.ApplicationCredentials.WithCredentials | src/Domain/Entities/ApplicationCredentials.php:21-25 | an aggregate built from an array keeps its key order and entries |
| Entities.ApplicationCredentials.GetCredentialsFor | src/Domain/Entities/ApplicationCredentials.php:43-46 | the credentials stored under the platform's value, or null when there are none |
| Entities.ApplicationCredentials.SetCredentials | src/Domain/Entities/ApplicationCredentials.php:66-69 | stored under its own platform's value; a new key goes last, an existing one keeps its place; the key order stays free of repeats |
| Entities.ApplicationCredentials.RemoveCredentials | src/Domain/Entities/ApplicationCredentials.php:95-98 | the platform's key and credentials are gone and nothing else changes |
| Entities.ApplicationCredentials.GetConfiguredPlatforms | src/Domain/Entities/ApplicationCredentials.php:76-87 | the loop lists the platforms of valid credentials in key order, failing as `PlatformType::from` does on a foreign key |
| Entities.ConfiguredMatchesHas | src/Domain/Entities/ApplicationCredentials.php:54-87 | for credentials stored through `setCredentials`, the listing cannot fail, lists exactly the platforms `hasCredentialsFor` accepts, and lists none twice |
| Entities.SetKeepsOwnKeys | src/Domain/Entities/ApplicationCredentials.php:66-69 | `setCredentials` keeps every credential under its own platform |
| Entities.SetThenGet | src/Domain/Entities/ApplicationCredentials.php:43-69 | reading a platform after setting it gives the credentials set; other platforms are untouched |
| Entities.AddedEvents | src/Domain/Entities/Platform.php:106-111 | the event is in the list afterwards, which is the old list or the old list with the event appended |
| Entities.DisabledAddDuplicates | src/Domain/Entities/Platform.php:65-111 | on a disabled platform adding an event already listed appends it a second time |
| Entities.AddedEventsDeduplicated | src/Domain/Entities/Platform.php:106-111 | the intended add: afterwards the list holds exactly the old events and the new one |
| Entities.DeduplicatedStaysDistinct | src/Domain/Entities/Platform.php:106-111 | the intended add keeps the list free of repeats |
| Entities.EnabledAddAgrees | src/Domain/Entities/Platform.php:65-111 | on an enabled platform the written add and the intended add agree |
| Entities.Platform.constructor | src/Domain/Entities/Platform.php:22-27 | the type, event list and flag as given |
| Entities.Platform.SupportsEventType | src/Domain/Entities/Platform.php:65-78 | true exactly when enabled and the event is listed |
| Entities.Platform.Enable | src/Domain/Entities/Platform.php:85-88 | enabled afterwards, the events unchanged |
| Entities.Platform.Disable | src/Domain/Entities/Platform.php:95-98 | disabled afterwards, the events unchanged |
| Entities.Platform.AddSupportedEvent | src/Domain/Entities/Platform.php:106-111 | the flag is unchanged and the event list is the written add's |
| Factory.ValueOf | src/Application/Services/EventFactory.php:56-64 | money only when an amount and a non-empty currency are given and `Money::from` accepts them: the amount as given, not negative, with the currency the code names |
| Factory.PageUrlOf | src/Application/Services/EventFactory.php:66-74 | a URL only when a non-empty one is given and `Url::fromString` accepts it: the trimmed input, starting with http:// or https:// |
| Factory.CustomerOf | src/Application/Services/EventFactory.php:51-53 | no customer gives the all-null customer; otherwise the DTO's customer goes through `CustomerData::fromArray` of its own `toArray` |
| Factory.CreateFromDtoAsWritten | src/Application/Services/EventFactory.php:42-48 | as written: an unknown type instantiates the abstract DomainException, which PHP refuses with an Error; a known type builds the event |
| Factory.CreateFromDto | src/Application/Services/EventFactory.php:42-88 | an unknown type is an InvalidEventType failure; otherwise the event has that type, the fresh id and instant, the DTO's items, properties, ids, shipping and search term, and the value and URL that survive their checks |
| Factory.CreateFromArray | src/Application/Services/EventFactory.php:29-33 | the DTO's TypeError, or `createFromDTO` of the DTO read from the array |
| Factory.CreateFromArrayAsWritten | src/Application/Services/EventFactory.php:29-33 | the same, over the as-written `createFromDTO` |
| Factory.AsWrittenAgrees | src/Application/Services/EventFactory.php:42-48 | the written and the corrected factory agree on every known type and both fail on the others |
| Factory.UnknownTypeIsNotAnException | src/Application/Services/EventFactory.php:45-48 | for the type "foo" the written factory fails with an Error that is no `\Exception`, the corrected one with an exception |
| Factory.EventIdIgnored | src/Application/Services/EventFactory.php:75-87 | the DTO's event id plays no part: the event always gets a fresh id |
| Factory.BadMoneyDropped | src/Application/Services/EventFactory.php:58-62 | an amount or currency `Money::from` refuses is dropped without failing |
| Factory.GoodMoneyKept | src/Application/Services/EventFactory.php:57-59 | a non-negative amount with a known currency is kept as that money |
| Factory.BadUrlDropped | src/Application/Services/EventFactory.php:68-72 | a URL `Url::fromString` refuses is dropped without failing |
| Factory.MissingCustomerIsEmpty | src/Application/Services/EventFactory.php:51-53 | an event without a customer gets the all-null customer |
| Config.MappedPlatforms | src/Application/Services/ConfigService.php:182-185 | a non-string name is a TypeError; otherwise the names that are platforms, in order, never more than were configured |
| Config.MappedMembers | src/Application/Services/ConfigService.php:182-185 | a platform is kept exactly when its name is configured |
| Config.MappedAppend | src/Application/Services/ConfigService.php:182-185 | a further name adds its platform at the end, or nothing when it names none |
| Config.Names | src/Application/Services/ConfigService.php:178-186 | a list of platforms written as their names, in order |
| Config.MappedNames | src/Application/Services/ConfigService.php:182-185 | a mapping written from platforms reads back as those platforms |
| Config.ConfigService.StringSetting | src/Application/Services/ConfigService.php:37-70 | an unset key gives the default; a set one must be a string (the `string` return type) |
| Config.ConfigService.GetEventMappings | src/Application/Services/ConfigService.php:178-187 | the type's entry, default [], must be an array; a list gives its platform names in order, a keyed array the platforms among its values; every platform returned is named among the entry's values |
| Config.MappedValues | src/Application/Services/ConfigService.php:182-185 | a keyed array is read by its values: a non-string value is a TypeError, otherwise a platform is returned exactly when some value names it |
| Config.KeyedNameRead | src/Application/Services/ConfigService.php:182-185 | `['x' => 'meta']` is read as Meta, whatever the key |
| Config.KeyedMappingSelects | src/Application/Services/ConfigService.php:178-187 | a type whose entry is `['x' => 'meta']` is mapped to Meta |
| Config.ConfigService.GetAllEventMappings | src/Application/Services/ConfigService.php:193-196 | the mapping array, or [] when unset |
| Config.ConfigService.GetPlatformConfig | src/Application/Services/ConfigService.php:204-207 | null when the platform has no settings, otherwise its settings array |
| Config.ConfigService.GetAllPlatformConfigs | src/Application/Services/ConfigService.php:214-217 | the platforms array, or [] when unset |
| Config.EmptyConfigDefaults | src/Application/Services/ConfigService.php:27-217 | an empty configuration gives every documented default: queue 'default', connection 'mongodb', the two collections, every flag on, TTL 3600, 3 attempts, threshold 5, app id 0, no mappings or platform settings |
| Config.FalsyDisables | src/Application/Services/ConfigService.php:79 | a logging setting of false, 0, '' or '0' turns logging off |
| Config.ShippedEventMappings | config/pixel-manager.php:124-137 | with the shipped mapping every type goes to all six platforms in the shipped order, except `customize_product`, which goes to Meta only |
| Selection.Filter | src/Application/Services/PlatformSelector.php:41-45 | the kept platforms come from the mapping and have valid credentials |
| Selection.FilterAppend | src/Application/Services/PlatformSelector.php:41-45 | filtering distributes over concatenation |
| Selection.FilterCounts | src/Application/Services/PlatformSelector.php:41-45 | a usable platform keeps every occurrence, an unusable one none |
| Selection.FilterMembers | src/Application/Services/PlatformSelector.php:41-45 | a platform is kept exactly when it is mapped and usable |
| Selection.FilterNone | src/Application/Services/PlatformSelector.php:41-45 | with no usable platform nothing is selected |
| Selection.FilterAll | src/Application/Services/PlatformSelector.php:41-45 | with every mapped platform usable the mapping is kept whole |
| Selection.SelectPlatforms | src/Application/Services/PlatformSelector.php:30-48 | the loop gives the mapped platforms with valid credentials, in mapping order; a TypeError of the mapping or a ValueError of the configured list propagates |
| Selection.ShouldSendTo | src/Application/Services/PlatformSelector.php:58-69 | fails exactly when the selection fails, otherwise true exactly when the platform is selected |
| Selection.Contains | src/Application/Services/PlatformSelector.php:62-68 | the search finds the platform exactly when it is in the list |
| Selection.SelectedIff | src/Application/Services/PlatformSelector.php:30-48 | a platform is selected exactly when the type maps to it and the application holds valid credentials for it |
| Selection.ShippedCustomizeProduct | src/Application/Services/PlatformSelector.php:30-48 | with the shipped mapping `customize_product` goes to Meta exactly when Meta's credentials are valid |
| Distribution.Outbox.constructor | src/Application/Services/EventDistributor.php:20-27 | nothing logged, saved or pushed yet |
| Distribution.Outbox.Emit | src/Application/Services/EventDistributor.php:42-78 | one effect (a log line, an audit record or a queue push) is appended and nothing else changes |
| Distribution.SerializedEventFields | src/Application/Services/EventDistributor.php:89-104 | the job's event array carries the id, the type's value, and the amount and currency code exactly when the event has a value (both null otherwise) |
| Distribution.SerializedPhone | src/Application/Services/EventDistributor.php:119-120 | the customer array's phone is the full number and `phone_code` the country code |
| Distribution.PropertiesArray | src/Application/Services/EventDistributor.php:144-156 | one entry per public property, keyed by the property's name |
| Distribution.SerializeCredentials | src/Application/Services/EventDistributor.php:144-156 | the reflection loop builds the array of the credentials' public properties |
| Distribution.CredentialsPayloadKeys | src/Application/Services/EventDistributor.php:144-156 | the job's credentials are keyed by the record's property names, not the prefixed settings keys |
| Distribution.PushFor | src/Application/Services/EventDistributor.php:70-78 | a push onto the configured queue of a job for that platform's value and the application |
| Distribution.EventDistributor.constructor | src/Application/Services/EventDistributor.php:20-27 | the configuration and outbox as given |
| Distribution.EventDistributor.Distribute | src/Application/Services/EventDistributor.php:36-81 | no credentials logs a warning and stops; the selection's failure propagates; otherwise what `Dispatched` describes, appended to the outbox |
| Distribution.EventDistributor.DispatchSelected | src/Application/Services/EventDistributor.php:49-80 | no platforms logs an info line and stops; otherwise the audit record when logging is on, then one job per usable platform on the configured queue |
| Distribution.EventDistributor.Dispatch | src/Application/Services/EventDistributor.php:65-80 | the loop appends exactly `Jobs`: one push per platform whose credentials are present and valid, in selection order |
| Distribution.OneJobPerPlatform | src/Application/Services/EventDistributor.php:65-80 | with every selected platform usable there is one job per platform, the i-th for the i-th platform |
| Distribution.JobsArePushes | src/Application/Services/EventDistributor.php:65-80 | every job is a push onto the given queue for the given application |
| Distribution.NothingToSend | src/Application/Services/EventDistributor.php:41-55 | without credentials or without selected platforms `distribute` succeeds and only logs |
| Distribution.AuditThenPushes | src/Application/Services/EventDistributor.php:57-80 | with platforms selected: the audit record first (when logging is on), then exactly one push per selected platform |
| Tracking.Caught | src/Application/UseCases/TrackPixelEvent/TrackPixelEventHandler.php:49-59 | an exception is logged and swallowed, a domain exception with the validation message; an Error propagates with nothing logged |
| Tracking.TrackPixelEventHandler.constructor | src/Application/UseCases/TrackPixelEvent/TrackPixelEventHandler.php:20-26 | the distributor and configuration as given |
| Tracking.TrackPixelEventHandler.Handle | src/Application/UseCases/TrackPixelEvent/TrackPixelEventHandler.php:34-60 | as written: a bot with detection on is logged and skipped; otherwise the event is built, distributed and any exception caught, as `Handled` says over the written factory |
| Tracking.TrackPixelEventHandler.HandleIntended | src/Application/UseCases/TrackPixelEvent/TrackPixelEventHandler.php:34-60 | the same over the corrected factory |
| Tracking.TrackPixelEventHandler.Track | src/Application/UseCases/TrackPixelEvent/TrackPixelEventHandler.php:42-59 | the `try` block: a factory failure is caught; otherwise `distribute` runs and its failure is caught |
| Tracking.TrackPixelEventHandler.Catch | src/Application/UseCases/TrackPixelEvent/TrackPixelEventHandler.php:49-59 | the two catch blocks, as `Caught` says |
| Tracking.BotSkipped | src/Application/UseCases/TrackPixelEvent/TrackPixelEventHandler.php:37-40 | a bot request with detection on builds and distributes nothing and logs one debug line |
| Tracking.DetectorIgnoredWhenDisabled | src/Application/UseCases/TrackPixelEvent/TrackPixelEventHandler.php:37 | with detection off the detector's answer changes nothing |
| Tracking.DomainErrorSwallowed | src/Application/UseCases/TrackPixelEvent/TrackPixelEventHandler.php:49-53 | a domain exception from the factory is logged and nothing is distributed |
| Tracking.DistributedOnce | src/Application/UseCases/TrackPixelEvent/TrackPixelEventHandler.php:42-59 | otherwise the event is distributed once; what the distributor did comes first, and its failure is swallowed exactly when it is an exception |
| Tracking.UnknownTypeEscapesHandle | src/Application/UseCases/TrackPixelEvent/TrackPixelEventHandler.php:42-59 | for the type "foo" the written handler lets an Error escape with nothing logged; the corrected one logs a domain validation error and succeeds |
| HttpAdapters.RawOf | src/Infrastructure/Http/PlatformAdapters/AbstractHttpPlatformAdapter.php:80-92 | the decoded body becomes the raw response when it is an array, null when it is null; any other JSON value breaks the `?array` parameter with an Error |
| HttpAdapters.Classify | src/Infrastructure/Http/PlatformAdapters/AbstractHttpPlatformAdapter.php:66-103 | a 2xx status is a success with the decoded body; another status a failure "HTTP <status>: <body>"; a thrown exception is logged and becomes a failure with its message; every response carries the instant |
| HttpAdapters.ClassifyGoogle | src/Infrastructure/Http/PlatformAdapters/GooglePlatformAdapter.php:53-87 | GA4: a 2xx status is a success without body; another status a failure "Google Analytics error: <body>"; an exception is logged and becomes a failure |
| HttpAdapters.SuccessIffTwoHundred | src/Infrastructure/Http/PlatformAdapters/AbstractHttpPlatformAdapter.php:79-81 | a response is a success exactly when the request returned a 2xx status; an exception never escapes |
| HttpAdapters.EmptyBodyNoRaw | src/Infrastructure/Http/PlatformAdapters/AbstractHttpPlatformAdapter.php:79-92 | a body that decodes to null gives a response without raw data |
| HttpAdapters.ScalarJsonEscapes | src/Infrastructure/Http/PlatformAdapters/AbstractHttpPlatformAdapter.php:80 | a 2xx body of JSON `1` is no array, so `success` fails with a TypeError the catch does not take |
| AdapterClasses.DefaultFor | src/Infrastructure/Http/PlatformAdapters/Factories/PlatformAdapterFactory.php:43-53 | the class registered for a platform serves that platform |
| AdapterClasses.PlatformInjective | src/Infrastructure/Http/PlatformAdapters/Factories/PlatformAdapterFactory.php:43-53 | no two adapter classes serve the same platform |
| AdapterClasses.SupportsIff | src/Infrastructure/Http/PlatformAdapters/TikTokPlatformAdapter.php:23-26 | a type is unsupported exactly by TikTok, Pinterest and Snapchat, and only when it is a product customisation |
| AdapterClasses.UnnamedTypes | src/Infrastructure/Http/PlatformAdapters/TikTokPlatformAdapter.php:28-43 | Meta, GA4 and Brevo name every type; TikTok, Snapchat and Pinterest leave types they support unnamed (view_cart, add_payment_info, subscription) |
| MetaPlatformAdapter.Headers | src/Infrastructure/Http/PlatformAdapters/MetaPlatformAdapter.php:180-185 | only a `Content-Type` header, and it never carries the access token, which travels in the body |
| MetaPlatformAdapter.NamesTotalAndDistinct | src/Infrastructure/Http/PlatformAdapters/MetaPlatformAdapter.php:25-46 | every type is supported and named, and no two types share a Meta name |
| MetaPlatformAdapter.EndpointNamesPixel | src/Infrastructure/Http/PlatformAdapters/MetaPlatformAdapter.php:174-178 | the URL is the Graph API v18.0 prefix, the pixel id, then "/events" |
| MetaPlatformAdapter.PayloadShape | src/Infrastructure/Http/PlatformAdapters/MetaPlatformAdapter.php:168-171 | the body has exactly `data`, holding the one server event, and `access_token` |
| MetaPlatformAdapter.EventFieldsOf | src/Infrastructure/Http/PlatformAdapters/MetaPlatformAdapter.php:155-166 | the server event carries id, time, Meta name, 'website', user and custom data, and `event_source_url` exactly when there is a page URL |
| MetaPlatformAdapter.UserKeysDistinct | src/Infrastructure/Http/PlatformAdapters/MetaPlatformAdapter.php:53-124 | the fifteen `user_data` assignments write fifteen different keys, in source order |
| MetaPlatformAdapter.UserEntry | src/Infrastructure/Http/PlatformAdapters/MetaPlatformAdapter.php:53-124 | a `user_data` key is present exactly when its guard held, with the value assigned |
| MetaPlatformAdapter.UserDataIdentifiers | src/Infrastructure/Http/PlatformAdapters/MetaPlatformAdapter.php:55-79 | e-mail and phone are sent hashed, IP and agent as they are, birth date as Ymd, each exactly when the customer has it |
| MetaPlatformAdapter.UserDataPerson | src/Infrastructure/Http/PlatformAdapters/MetaPlatformAdapter.php:81-93 | gender as its lower-cased first letter, names lower-cased, each only when neither null, '' nor '0' |
| MetaPlatformAdapter.UserDataPlaceAndIds | src/Infrastructure/Http/PlatformAdapters/MetaPlatformAdapter.php:95-124 | city, state, country (lower-cased), zip, external id, fbc and fbp, each only when filled |
| MetaPlatformAdapter.CustomDataFields | src/Infrastructure/Http/PlatformAdapters/MetaPlatformAdapter.php:127-152 | value and currency exactly with a value; contents and their count exactly with items; order id from the transaction id; search string from the term |
| MetaPlatformAdapter.ContentDefaults | src/Infrastructure/Http/PlatformAdapters/MetaPlatformAdapter.php:136-140 | an item without quantity is sent with 1, without price with 0, without id with '' |
| GooglePlatformAdapter.Headers | src/Infrastructure/Http/PlatformAdapters/GooglePlatformAdapter.php:151-156 | only a `Content-Type` header, and it never carries the API secret, which travels in the query string |
| GooglePlatformAdapter.NamesTotal | src/Infrastructure/Http/PlatformAdapters/GooglePlatformAdapter.php:26-47 | every event type is supported and named; a completed registration becomes `sign_up`, a subscription is reported as a purchase, every other type keeps its own value |
| GooglePlatformAdapter.EndpointQuery | src/Infrastructure/Http/PlatformAdapters/GooglePlatformAdapter.php:142-149 | the URL is the collect endpoint followed by `?measurement_id=` with the measurement id and `&api_secret=` with the secret |
| GooglePlatformAdapter.PayloadIdentity | src/Infrastructure/Http/PlatformAdapters/GooglePlatformAdapter.php:130-139 | the body has exactly `client_id` (the external id, or `anonymous`), `user_id` (the external id or null) and one event with the mapped name and the parameters |
| GooglePlatformAdapter.ParamFieldsOf | src/Infrastructure/Http/PlatformAdapters/GooglePlatformAdapter.php:94-128 | value and currency appear together exactly when the event has a value; transaction id, search term, items and page location exactly when set; shipping only when non-zero |
| GooglePlatformAdapter.ItemDefaults | src/Infrastructure/Http/PlatformAdapters/GooglePlatformAdapter.php:113-124 | an item without quantity, price, category or name is sent with quantity 1, price 0, a null category and an empty name |
| TikTokPlatformAdapter.Names | src/Infrastructure/Http/PlatformAdapters/TikTokPlatformAdapter.php:23-43 | every type but a product customisation is supported; exactly a viewed cart and a customisation have no name; a purchase is `CompletePayment`; distinct types get distinct names; a viewed cart is supported yet unnamed |
| TikTokPlatformAdapter.HeadersCarryToken | src/Infrastructure/Http/PlatformAdapters/TikTokPlatformAdapter.php:125-133 | the headers are exactly `Access-Token` (the credentials' token) and the content type |
| TikTokPlatformAdapter.PayloadFields | src/Infrastructure/Http/PlatformAdapters/TikTokPlatformAdapter.php:104-117 | the body carries the pixel code, the mapped name (null when unnamed), the event id, the page URL or an empty string, and properties that repeat the pixel code |
| TikTokPlatformAdapter.PropertyFieldsOf | src/Infrastructure/Http/PlatformAdapters/TikTokPlatformAdapter.php:75-102 | the properties hold the pixel code; contents and the `product` content type exactly when the event has items; value and currency exactly when it has a value; the query exactly when a search term is set |
| TikTokPlatformAdapter.UserFieldsOf | src/Infrastructure/Http/PlatformAdapters/TikTokPlatformAdapter.php:49-73 | the user block has the hashed email, hashed phone, IP and user agent exactly when the customer has them, and the external id exactly when it is set |
| PinterestPlatformAdapter.Names | src/Infrastructure/Http/PlatformAdapters/PinterestPlatformAdapter.php:27-42 | every type but a product customisation is supported; an item view and a page view are both `page_visit`; exactly a subscription, a begun checkout, a viewed cart, payment info, a wishlist addition and a customisation have no name |
| PinterestPlatformAdapter.EndpointOf | src/Infrastructure/Http/PlatformAdapters/PinterestPlatformAdapter.php:163-171 | the URL is the environment's base URL, `/v5/ad_accounts/`, the account id and `/events`, and ends in `?test=true` exactly for the sandbox |
| PinterestPlatformAdapter.HeadersCarryToken | src/Infrastructure/Http/PlatformAdapters/PinterestPlatformAdapter.php:173-181 | the authorisation header is `Bearer` followed by the access token |
| PinterestPlatformAdapter.UserKeysDistinct | src/Infrastructure/Http/PlatformAdapters/PinterestPlatformAdapter.php:46-107 | the user data is built from thirteen distinct keys, in the order the source writes them |
| PinterestPlatformAdapter.UserDataFields | src/Infrastructure/Http/PlatformAdapters/PinterestPlatformAdapter.php:46-107 | each identifier is present exactly when the customer has it; gender, names, city, state and country are lower-cased before hashing, the birth date is hashed as `Ymd`, the external id is hashed as it is, IP and user agent are plain |
| PinterestPlatformAdapter.CustomDataFields | src/Infrastructure/Http/PlatformAdapters/PinterestPlatformAdapter.php:110-132 | the value is sent as a string exactly when the event has one; content ids (one per item) and the item count exactly when it has items; the order id exactly when set |
| PinterestPlatformAdapter.OptOut | src/Infrastructure/Http/PlatformAdapters/PinterestPlatformAdapter.php:135-152 | `opt_out` is present exactly when the custom property exists and is its truthiness; the action source is `web`; the source URL is present exactly when the page URL is |
| SnapchatPlatformAdapter.Headers | src/Infrastructure/Http/PlatformAdapters/SnapchatPlatformAdapter.php:163-168 | only a `Content-Type` header, and it never carries the access token, which travels in the URL |
| SnapchatPlatformAdapter.Names | src/Infrastructure/Http/PlatformAdapters/SnapchatPlatformAdapter.php:23-42 | every type but a product customisation is supported; exactly a viewed cart, payment info and a customisation have no name; an add to cart is `ADD_CART`; distinct types get distinct names |
| SnapchatPlatformAdapter.EndpointParts | src/Infrastructure/Http/PlatformAdapters/SnapchatPlatformAdapter.php:155-161 | the URL is the host, the pixel id, `/events?access_token=` and the access token, in that order |
| SnapchatPlatformAdapter.UserKeysDistinct | src/Infrastructure/Http/PlatformAdapters/SnapchatPlatformAdapter.php:48-103 | the user data is built from distinct keys, in the order the source writes them |
| SnapchatPlatformAdapter.UserDataIdentifiers | src/Infrastructure/Http/PlatformAdapters/SnapchatPlatformAdapter.php:51-103 | the hashed email and phone and the plain IP address are in the user data exactly when the customer has them |
| SnapchatPlatformAdapter.EventCopiesUserData | src/Infrastructure/Http/PlatformAdapters/SnapchatPlatformAdapter.php:131-140 | the event copies email, phone and IP address out of the user data (null when absent) and sends the time in milliseconds |
| SnapchatPlatformAdapter.EventIdentifiers | src/Infrastructure/Http/PlatformAdapters/SnapchatPlatformAdapter.php:131-140 | for the user data the adapter builds, the event's hashed email, phone and IP are the customer's, or null when missing |
| SnapchatPlatformAdapter.CustomDataEmpty | src/Infrastructure/Http/PlatformAdapters/SnapchatPlatformAdapter.php:106-128 | the custom data is empty exactly when the event has no value, no items, no order id and no search term |
| SnapchatPlatformAdapter.CustomDataOmitted | src/Infrastructure/Http/PlatformAdapters/SnapchatPlatformAdapter.php:146-148 | the event has `custom_data` exactly when the custom data is not empty |
| SnapchatPlatformAdapter.CustomDataFields | src/Infrastructure/Http/PlatformAdapters/SnapchatPlatformAdapter.php:113-124 | the item count is sent as a decimal string exactly when there are items; the transaction id is the order id, exactly when set |
| BrevoPlatformAdapter.Names | src/Infrastructure/Http/PlatformAdapters/BrevoPlatformAdapter.php:23-31 | every type is supported and named by its own value, so distinct types get distinct names |
| BrevoPlatformAdapter.HeadersCarryKey | src/Infrastructure/Http/PlatformAdapters/BrevoPlatformAdapter.php:121-129 | the headers are exactly `api-key` (the credentials' key) and the content type |
| BrevoPlatformAdapter.PayloadKeys | src/Infrastructure/Http/PlatformAdapters/BrevoPlatformAdapter.php:108-113 | the body has exactly the event name, identifiers, contact properties and event properties; the event is the type's own value |
| BrevoPlatformAdapter.IdentifiersOf | src/Infrastructure/Http/PlatformAdapters/BrevoPlatformAdapter.php:38-46 | the identifiers hold the plain email and the external id, each exactly when present, and nothing else |
| BrevoPlatformAdapter.PropertiesOf | src/Infrastructure/Http/PlatformAdapters/BrevoPlatformAdapter.php:49-106 | contact properties hold first name, SMS and ZIP code exactly when set; event properties hold value, order id, items and page URL exactly when set |
| Decorators.Runtime.constructor | src/Infrastructure/Http/PlatformAdapters/Decorators/CircuitBreakerPlatformAdapter.php:22-28 | a fresh shared state: empty cache, no posts, no sleeps, an empty log |
| Decorators.Runtime.SendEvent | src/Infrastructure/Http/PlatformAdapters/Decorators/CircuitBreakerPlatformAdapter.php:45-88 | sending through a chain step by step (logging, rate limit, breaker, retries, base post) gives exactly the response and new state of the send function |
| Decorators.Runtime.Attempts | src/Infrastructure/Http/PlatformAdapters/Decorators/RetryingPlatformAdapter.php:44-65 | the retry loop gives exactly the response and state of the retry function from attempt 1 |
| Decorators.Delegates | src/Infrastructure/Http/PlatformAdapters/Decorators/LoggingPlatformAdapter.php:28-41 | every decorator passes platform, `supports` and `mapEventName` to the adapter it wraps, so a chain answers as its base adapter |
| Decorators.Frame | src/Infrastructure/Http/PlatformAdapters/Decorators/RateLimitingPlatformAdapter.php:44-65 | a send leaves every cache entry outside the chain's own keys as it was |
| Decorators.RetryFrame | src/Infrastructure/Http/PlatformAdapters/Decorators/RetryingPlatformAdapter.php:44-65 | the retries from any attempt leave every cache entry outside the chain's own keys as it was |
| Decorators.TouchesOwnKeys | src/Infrastructure/Http/PlatformAdapters/Decorators/CircuitBreakerPlatformAdapter.php:68-88 | a chain writes at most its own platform's rate key and failure key |
| Decorators.KeysDistinct | src/Infrastructure/Http/PlatformAdapters/Decorators/RateLimitingPlatformAdapter.php:62-65 | rate keys and failure keys of distinct platforms differ, and no rate key is a failure key |
| Decorators.OtherPlatformsUntouched | src/Infrastructure/Http/PlatformAdapters/Decorators/CircuitBreakerPlatformAdapter.php:68-88 | a send through one platform's chain changes neither counter of any other platform |
| Decorators.LoggingPassesThrough | src/Infrastructure/Http/PlatformAdapters/Decorators/LoggingPlatformAdapter.php:43-69 | logging returns the inner response unchanged, changes nothing else, and adds one line, at debug level exactly for a success |
| Decorators.RateLimitRejects | src/Infrastructure/Http/PlatformAdapters/Decorators/RateLimitingPlatformAdapter.php:44-54 | at or over the limit the send fails with the rate message, without reaching the inner adapter and without changing anything |
| Decorators.RateLimitCounts | src/Infrastructure/Http/PlatformAdapters/Decorators/RateLimitingPlatformAdapter.php:56-59 | under the limit the counter is raised by one with a 60-second expiry before the inner send |
| Decorators.CircuitOpenRejects | src/Infrastructure/Http/PlatformAdapters/Decorators/CircuitBreakerPlatformAdapter.php:45-54 | an open breaker fails the send with its message, without reaching the inner adapter and without changing anything |
| Decorators.CircuitClosedRecords | src/Infrastructure/Http/PlatformAdapters/Decorators/CircuitBreakerPlatformAdapter.php:56-88 | a closed breaker returns the inner response; a success clears the failure counter, a failure raises it by one with the breaker's timeout |
| Decorators.BackoffsTotal | src/Infrastructure/Http/PlatformAdapters/Decorators/RetryingPlatformAdapter.php:70-74 | the sleeps double from 100 ms; those after attempts first to last total 100 * (2^last - 2^(first-1)) ms |
| Decorators.RetryFailingRun | src/Infrastructure/Http/PlatformAdapters/Decorators/RetryingPlatformAdapter.php:49-64 | when every remaining attempt fails, each posts once, a sleep follows each but the last, and the last failure is returned |
| Decorators.RetrySucceedingRun | src/Infrastructure/Http/PlatformAdapters/Decorators/RetryingPlatformAdapter.php:49-61 | when attempt k is the first to succeed, its success is returned after exactly the posts and sleeps before it |
| Decorators.RetryExhausts | src/Infrastructure/Http/PlatformAdapters/Decorators/RetryingPlatformAdapter.php:44-65 | with every attempt failing, `maxAttempts` posts are made, the last failure is returned, and the sleeps total 100 * (2^(n-1) - 1) ms |
| Decorators.RetryStopsAtSuccess | src/Infrastructure/Http/PlatformAdapters/Decorators/RetryingPlatformAdapter.php:49-54 | the first success ends the retries: k posts and k - 1 sleeps |
| Decorators.RetryNoAttempts | src/Infrastructure/Http/PlatformAdapters/Decorators/RetryingPlatformAdapter.php:46-64 | with no attempt allowed nothing is posted and the null response breaks the declared return type |
| Decorators.RateWindow | src/Infrastructure/Http/PlatformAdapters/Decorators/RateLimitingPlatformAdapter.php:44-59 | within one window, of k sends through a limit of max only the first min(k, max) reach the platform |
| Decorators.CircuitCountsFailures | src/Infrastructure/Http/PlatformAdapters/Decorators/CircuitBreakerPlatformAdapter.php:45-83 | from a cleared counter, k failing sends up to the threshold each reach the platform and leave the counter at k |
| Decorators.CircuitOpensAfterFailures | src/Infrastructure/Http/PlatformAdapters/Decorators/CircuitBreakerPlatformAdapter.php:45-77 | threshold consecutive failures open the breaker: the next send fails at once without a post and changes nothing |
| AdapterFactory.DecoratorClass.Instance | src/Infrastructure/Http/PlatformAdapters/Factories/PlatformAdapterFactory.php:90-95 | the container builds each decorator with its constructor defaults: 100 requests a minute, a threshold of 5 with a 60-second timeout, 3 attempts |
| AdapterFactory.Instances | src/Infrastructure/Http/PlatformAdapters/Factories/PlatformAdapterFactory.php:93-95 | one decorator per added class, in the order added |
| AdapterFactory.ChainLayers | src/Infrastructure/Http/PlatformAdapters/Factories/PlatformAdapterFactory.php:89-97 | a created chain is the base class under exactly the added decorators, the first innermost |
| AdapterFactory.DefaultsComplete | src/Infrastructure/Http/PlatformAdapters/Factories/PlatformAdapterFactory.php:43-53 | by default each of the six platforms is registered with its own class, and nothing else |
| AdapterFactory.PlatformAdapterFactory.constructor | src/Infrastructure/Http/PlatformAdapters/Factories/PlatformAdapterFactory.php:34-38 | a new factory has the six default classes and no decorator |
| AdapterFactory.PlatformAdapterFactory.Register | src/Infrastructure/Http/PlatformAdapters/Factories/PlatformAdapterFactory.php:61-64 | `register` replaces the class of one platform and nothing else |
| AdapterFactory.PlatformAdapterFactory.AddDecorator | src/Infrastructure/Http/PlatformAdapters/Factories/PlatformAdapterFactory.php:71-74 | `addDecorator` appends to the decorators and keeps the rest |
| AdapterFactory.PlatformAdapterFactory.Create | src/Infrastructure/Http/PlatformAdapters/Factories/PlatformAdapterFactory.php:83-98 | an unregistered platform raises the runtime error naming it; otherwise the registered class wrapped by every decorator in the order added |
| AdapterFactory.CreatedForPlatform | src/Infrastructure/Http/PlatformAdapters/Factories/PlatformAdapterFactory.php:43-98 | with the default classes, the chain built for a platform answers for that platform and its base is that platform's class |
| AdapterFactory.ProviderDecorators | src/Presentation/Providers/PixelManagerServiceProvider.php:181-193 | logging comes first, and rate limiting, the breaker and retries are present exactly when enabled in the configuration |
| AdapterFactory.ProvideFactory | src/Presentation/Providers/PixelManagerServiceProvider.php:174-196 | the provider's factory has the default classes and exactly those decorators |
| AdapterFactory.ProviderChain | src/Presentation/Providers/PixelManagerServiceProvider.php:181-193 | with every feature enabled, retries are outermost, then the breaker, the rate limit, logging and the platform's class |
| AdapterFactory.FullChain | src/Infrastructure/Http/PlatformAdapters/Factories/PlatformAdapterFactory.php:93-95 | the fully configured chain is retries around one attempt through breaker, rate limit and logging |
| AdapterFactory.FailedAttempt | src/Infrastructure/Http/PlatformAdapters/Decorators/CircuitBreakerPlatformAdapter.php:45-66 | one failing attempt below both limits posts once, keeps the failure and raises both counters by one |
| AdapterFactory.ProviderChainAllFail | src/Infrastructure/Http/PlatformAdapters/Decorators/RetryingPlatformAdapter.php:44-65 | with every post failing, one event through the full chain makes three posts, sleeps 100 then 200 ms, returns the last failure and leaves both counters at three, so the breaker stays closed |
| AdapterFactory.RetriedAttemptsFail | src/Infrastructure/Http/PlatformAdapters/Decorators/RetryingPlatformAdapter.php:44-65 | three retries around an attempt that posts once and counts on both counters, with every post failing from a fresh state: three posts, sleeps of 100 and 200 ms, the last failure, both counters at three |
| AdapterFactory.FailingAttemptsFrom | src/Infrastructure/Http/PlatformAdapters/Decorators/RetryingPlatformAdapter.php:44-65 | from any attempt on, failing attempts below both limits each post once and raise both counters by one, a sleep follows each but the last, and the last failure is returned |
| AdapterFactory.RetryFailedStep | src/Infrastructure/Http/PlatformAdapters/Decorators/RetryingPlatformAdapter.php:48-62 | a failed attempt before the last passes its failure and a sleep to the next round; on the last attempt the failure is the result |
| CredentialCache.AppKeyInjective | src/Infrastructure/Persistence/Cache/CachedCredentialsRepository.php:38 | distinct applications get distinct cache keys |
| CredentialCache.CredentialsIn | src/Domain/Entities/ApplicationCredentials.php:43-46 | a stored copy gives a platform's credentials exactly when it holds an entry under the platform's value |
| CredentialCache.CachedCredentialsRepository.constructor | src/Infrastructure/Persistence/Cache/CachedCredentialsRepository.php:23-28 | the repository starts from the given store, cache and lifetime |
| CredentialCache.CachedCredentialsRepository.FindByApplicationId | src/Infrastructure/Persistence/Cache/CachedCredentialsRepository.php:36-45 | a hit returns the cached copy and changes nothing; a miss returns the store's answer and caches it, null included; over a coherent cache the answer is the store's and the cache stays coherent |
| CredentialCache.CachedCredentialsRepository.FindPlatformCredentials | src/Infrastructure/Persistence/Cache/CachedCredentialsRepository.php:54-60 | over a coherent cache, the platform's entry of the stored application, or null when there is no application |
| CredentialCache.CachedCredentialsRepository.Save | src/Infrastructure/Persistence/Cache/CachedCredentialsRepository.php:68-72 | the store gets the new copy, the application's cache entry is forgotten, and coherence is kept |
| CredentialCache.CachedCredentialsRepository.Delete | src/Infrastructure/Persistence/Cache/CachedCredentialsRepository.php:80-84 | the application leaves the store, its cache entry is forgotten, and coherence is kept |
| CredentialCache.CachedCredentialsRepository.Forget | src/Infrastructure/Persistence/Cache/CachedCredentialsRepository.php:92-96 | exactly the application's cache entry goes, which restores coherence when it was the only stale one |
| CredentialCache.ReadTwice | src/Infrastructure/Persistence/Cache/CachedCredentialsRepository.php:36-45 | over a coherent cache two reads give the store's answer, and a known application is then a hit |
| CredentialCache.SaveThenRead | src/Infrastructure/Persistence/Cache/CachedCredentialsRepository.php:68-72 | a save is seen by the next read, whatever was cached before |
| BotDetection.IsBot | src/Infrastructure/Security/BotDetector.php:48-65 | a user agent is a bot exactly when it is not empty and its lower-cased form contains one of the nineteen patterns |
| BotDetection.Detect | src/Infrastructure/Security/BotDetector.php:48-65 | the emptiness test and the pattern loop give exactly that answer |
| BotDetection.CoreDecides | src/Infrastructure/Security/BotDetector.php:20-40 | the nine patterns no other pattern contains decide `isBot` alone; the `*bot` names and `baiduspider` are redundant |
| BotDetection.AnyBotIsBot | src/Infrastructure/Security/BotDetector.php:56-62 | any user agent containing `bot`, in any case, is a bot |
| BotDetection.CaseInsensitive | src/Infrastructure/Security/BotDetector.php:56 | detection ignores ASCII case |
| BotDetection.UserAgentBotIsBot | src/Domain/ValueObjects/UserAgent.php:70-86 | a non-empty user agent the value object calls a bot is a bot to the detector as well |
| UserAgents.UserAgent.CheckMobile | src/Domain/ValueObjects/UserAgent.php:47-63 | the keyword loop of `isMobile` gives exactly the keyword predicate |
| UserAgents.UserAgent.CheckBot | src/Domain/ValueObjects/UserAgent.php:70-86 | the pattern loop of `isBot` gives exactly the pattern predicate |
| Php.SearchKeywords | src/Infrastructure/Security/BotDetector.php:58-64 | the `foreach` with an early `return true` is true exactly when some keyword occurs in the string |
| CredentialsMapping.CamelToSnakeKeepsLower | src/Infrastructure/Persistence/MongoDB/Mappings/CredentialsMapper.php:103-106 | a property name without capitals is kept as it is |
| CredentialsMapping.CamelToSnakeBoundary | src/Infrastructure/Persistence/MongoDB/Mappings/CredentialsMapper.php:103-106 | each inner capital becomes an underscore followed by its small letter |
| CredentialsMapping.StoredKeysShape | src/Infrastructure/Persistence/MongoDB/Mappings/CredentialsMapper.php:83-89 | a platform's stored keys are distinct, one per public property, start with the keys its record is read from, and belong to no other platform |
| CredentialsMapping.StoredKeyOwner | src/Infrastructure/Persistence/MongoDB/Mappings/CredentialsMapper.php:88 | a stored key names one property of one platform |
| CredentialsMapping.FieldNamesAreStoredKeys | src/Infrastructure/Persistence/MongoDB/Mappings/CredentialsMapper.php:88 | the platform value, an underscore and the snake-cased property name give exactly the key the record is read back from |
| CredentialsMapping.LayoutsAgree | src/Infrastructure/Persistence/MongoDB/Mappings/CredentialsMapper.php:83-89 | both the as-written and the corrected layouts put each property under its own stored key, and no key is shared |
| CredentialsMapping.ToArray | src/Infrastructure/Persistence/MongoDB/Mappings/CredentialsMapper.php:72-95 | the array built is the flattening, in platform declaration order, of every stored record's public properties, values stored as they are |
| CredentialsMapping.ToArrayCorrected | src/Infrastructure/Persistence/MongoDB/Mappings/CredentialsMapper.php:72-95 | the same flattening, with an enum value stored by its backing value |
| CredentialsMapping.Flatten | src/Infrastructure/Persistence/MongoDB/Mappings/CredentialsMapper.php:76-92 | the outer loop over the platforms gives exactly the flattening under the layout |
| CredentialsMapping.PutFields | src/Infrastructure/Persistence/MongoDB/Mappings/CredentialsMapper.php:83-90 | the inner loop over a record's properties adds exactly that record's entries |
| CredentialsMapping.FieldsOf | src/Infrastructure/Persistence/MongoDB/Mappings/CredentialsMapper.php:83-90 | a record's entries are its stored keys, each holding the stored form of its property |
| CredentialsMapping.FlattenedLookup | src/Infrastructure/Persistence/MongoDB/Mappings/CredentialsMapper.php:76-92 | the flattened array holds a platform's stored keys exactly when the platform has credentials, each with the stored form of its property |
| CredentialsMapping.LayoutsStore | src/Infrastructure/Persistence/MongoDB/Mappings/CredentialsMapper.php:85-89 | both layouts keep strings; the corrected one stores an enum by its backing value, the as-written one keeps the enum object |
| CredentialsMapping.SetIfPresent | src/Infrastructure/Persistence/MongoDB/Mappings/CredentialsMapper.php:34-36 | one guarded block: nothing when a read key is not set, otherwise the record read with `fromArray` is set, and a failing read propagates |
| CredentialsMapping.ToDomain | src/Infrastructure/Persistence/MongoDB/Mappings/CredentialsMapper.php:29-64 | a new entity for the application, then the guarded reads for the six platforms in order; the result is exactly the decoding of the array, or its first error |
| CredentialsMapping.RunAppend | src/Infrastructure/Persistence/MongoDB/Mappings/CredentialsMapper.php:33-61 | running two lists of platforms is running the first, then the second from where it stopped |
| CredentialsMapping.ReadKeys | src/Infrastructure/Persistence/MongoDB/Mappings/CredentialsMapper.php:34-59 | in the array `toArray` builds, a platform's read keys are present exactly when it has credentials, each holding its property's string |
| CredentialsMapping.PresentIffStored | src/Infrastructure/Persistence/MongoDB/Mappings/CredentialsMapper.php:34-59 | in that array, a platform's `isset` guard holds exactly when it has credentials |
| CredentialsMapping.ReadBack | src/Infrastructure/Persistence/MongoDB/Mappings/CredentialsMapper.php:34-61 | `fromArray` reads a stored record back when strings are kept and, for Pinterest, the environment is stored by value |
| CredentialsMapping.PinterestEnvironmentStored | src/Infrastructure/Persistence/MongoDB/Mappings/CredentialsMapper.php:85-89 | the Pinterest environment is stored under its key, in the layout's stored form |
| CredentialsMapping.RunRoundTrip | src/Infrastructure/Persistence/MongoDB/Mappings/CredentialsMapper.php:33-61 | reading back platforms whose records read back adds their credentials in platform order |
| CredentialsMapping.StoredReadsBack | src/Infrastructure/Persistence/MongoDB/Mappings/CredentialsMapper.php:72-95 | every platform's step over the array `toArray` builds adds its stored credentials, or nothing |
| CredentialsMapping.InOrderKeys | src/Infrastructure/Persistence/MongoDB/Mappings/CredentialsMapper.php:33-61 | the keys read back are exactly the application's platforms, each once |
| CredentialsMapping.RoundTrip | src/Infrastructure/Persistence/MongoDB/Mappings/CredentialsMapper.php:29-95 | under any layout that keeps strings, and backs enums when Pinterest is stored, every application reads back as stored, listed in platform order |
| CredentialsMapping.RoundTripCorrected | src/Infrastructure/Persistence/MongoDB/Mappings/CredentialsMapper.php:29-95 | storing enums by value, every application reads back as stored: the same credentials, each platform once, in declaration order |
| CredentialsMapping.RoundTripAsWritten | src/Infrastructure/Persistence/MongoDB/Mappings/CredentialsMapper.php:29-95 | as written, an application without Pinterest credentials reads back as stored |
| CredentialsMapping.PinterestBreaksRoundTrip | src/Infrastructure/Persistence/MongoDB/Mappings/CredentialsMapper.php:49-51 | as written, an application with Pinterest credentials does not read back: the stored enum object makes `fromArray` fail with a TypeError |
| CredentialsEncryption.FieldsDistinct | src/Infrastructure/Security/LaravelCredentialsEncryptor.php:21-28 | the six secret fields are distinct |
| CredentialsEncryption.WalkPointwise | src/Infrastructure/Security/LaravelCredentialsEncryptor.php:46-57 | the walk escapes exactly when some field throws; otherwise the key set stays, only listed fields change, each as if visited alone, and one line is logged per caught failure |
| CredentialsEncryption.SameOutside | src/Infrastructure/Security/LaravelCredentialsEncryptor.php:46-57 | fields not yet visited see their original values, so a visit changes nothing the later fields depend on |
| CredentialsEncryption.LaravelCredentialsEncryptor.constructor | src/Infrastructure/Security/LaravelCredentialsEncryptor.php:30-34 | the encryptor holds the given encrypter and has logged nothing |
| CredentialsEncryption.LaravelCredentialsEncryptor.EncryptArray | src/Infrastructure/Security/LaravelCredentialsEncryptor.php:42-60 | the result and the new log lines are exactly those of the encrypting walk over the six fields |
| CredentialsEncryption.LaravelCredentialsEncryptor.DecryptArray | src/Infrastructure/Security/LaravelCredentialsEncryptor.php:68-88 | the result and the new log lines are exactly those of the decrypting walk over the six fields |
| CredentialsEncryption.LaravelCredentialsEncryptor.Process | src/Infrastructure/Security/LaravelCredentialsEncryptor.php:44-59 | the `foreach` over a copy, with its `isset`/`empty` guard and `catch (\Exception)`, gives exactly the walk's result and log |
| CredentialsEncryption.OnlySecretsChange | src/Infrastructure/Security/LaravelCredentialsEncryptor.php:46-57 | only the six secret fields can change, the key set stays, and an absent, null or empty field is untouched |
| CredentialsEncryption.FailureKeepsValue | src/Infrastructure/Security/LaravelCredentialsEncryptor.php:48-55 | a secret field whose encrypter call throws an exception keeps its value, and a line is logged at the pass's level |
| CredentialsEncryption.CaughtLogged | src/Infrastructure/Security/LaravelCredentialsEncryptor.php:74-83 | over any distinct field list, a caught field keeps its value and its line is in the log |
| CredentialsEncryption.CaughtCounted | src/Infrastructure/Security/LaravelCredentialsEncryptor.php:74-83 | a caught field counts towards the logged lines |
| CredentialsEncryption.EscapesIff | src/Infrastructure/Security/LaravelCredentialsEncryptor.php:46-57 | the method escapes exactly when a secret field holds a non-empty non-string, or the encrypter throws something that is not an `\Exception` |
| CredentialsEncryption.RoundTrip | src/Infrastructure/Security/LaravelCredentialsEncryptor.php:42-110 | for an encrypter that undoes itself, decrypting what `encryptArray` returned gives the original record |
| CredentialsEncryption.RoundTripOver | src/Infrastructure/Security/LaravelCredentialsEncryptor.php:42-110 | the same round trip over any distinct field list |
| LaravelConfig.Explode | src/Listeners/DistributePixelEvent.php:87 | `explode` gives at least one piece, and no piece holds the separator |
| LaravelConfig.ExplodeImplode | src/Listeners/DistributePixelEvent.php:87 | joining the pieces with the separator gives the string back |
| LaravelConfig.ExplodeFirst | src/Listeners/DistributePixelEvent.php:87 | a leading piece without the separator is split off whole |
| LaravelConfig.SettingWalks | src/Listeners/DistributePixelEvent.php:37 | `config('pixel-manager.' . path)` walks the path's pieces below the package array, unless an item is literally named with the whole dotted key |
| LaravelConfig.SettingOneLevel | src/PixelManager.php:46 | a one-piece path reads the package array's entry, or the default |
| LaravelConfig.SettingBelow | src/Listeners/DistributePixelEvent.php:37 | a path `outer.rest` walks `outer`, then the pieces of `rest` |
| LaravelConfig.SettingNested | src/Listeners/DistributePixelEvent.php:37 | a two-piece path reads the outer setting's entry, null included, or the default when the outer setting lacks it |
| LaravelConfig.ListEntries | src/PixelManager.php:95 | a list's entries are keyed by decimal indices |
| LegacyListener.Coerced | src/Listeners/DistributePixelEvent.php:130 | a string passes as it is, other scalars are converted, and null, arrays and objects are refused with a TypeError |
| LegacyListener.PrefixIsHead | src/Listeners/DistributePixelEvent.php:87 | a key's prefix is its start up to the first underscore, the whole key when it has none |
| LegacyListener.IntersectMembers | src/Listeners/DistributePixelEvent.php:92-94 | a value is a destination exactly when it is allowed and its string form is the prefix of a key with a non-null value |
| LegacyListener.IntersectAppend | src/Listeners/DistributePixelEvent.php:94 | the destinations keep the order of the allowed list, repeats included |
| LegacyListener.NullEnablesNothing | src/Listeners/DistributePixelEvent.php:85-90 | a key holding null contributes no prefix |
| LegacyListener.EmptyStringEnables | src/Listeners/DistributePixelEvent.php:85-90 | a key holding an empty string contributes its prefix |
| LegacyListener.JobForIsPlatform | src/Listeners/DistributePixelEvent.php:132-140 | exactly the six platform names have a job, each its own platform's |
| LegacyListener.QueuedFromDestinations | src/Listeners/DistributePixelEvent.php:69-71 | every queued job carries the event and application data and belongs to a destination whose name is that platform's |
| LegacyListener.EachPlatformQueued | src/Listeners/DistributePixelEvent.php:69-71 | with a usable queue name, every destination that is a platform name gets its job, in destination order |
| LegacyListener.DispatchPlatform | src/Listeners/DistributePixelEvent.php:130-145 | a destination naming a platform queues that platform's job on the given queue |
| LegacyListener.TypedEventHasData | src/Listeners/DistributePixelEvent.php:29-31 | an event with a type has its `data` array |
| LegacyListener.EventIdOnlyWhenMissing | src/Listeners/DistributePixelEvent.php:56-58 | a new id is set only when the event has none, and nothing else changes |
| LegacyListener.NothingWithoutTypeOrApp | src/Listeners/DistributePixelEvent.php:29-48 | without an event type (a warning) or without the application (an info line) nothing is queued, saved or thrown |
| LegacyListener.LogFailureSwallowed | src/Listeners/DistributePixelEvent.php:104-119 | a failing log insert changes neither the outcome nor the queued jobs |
| LegacyListener.JobsAppend | src/Listeners/DistributePixelEvent.php:60-71 | the jobs of two runs of effects are the jobs of the first, then those of the second |
| LegacyListener.DistributePixelEvent.constructor | src/Listeners/DistributePixelEvent.php:16 | a new listener has done nothing |
| LegacyListener.DistributePixelEvent.SetDestination | src/Listeners/DistributePixelEvent.php:81-95 | the destinations, or the TypeError of a non-array parameter, exactly as specified |
| LegacyListener.DistributePixelEvent.CollectPrefixes | src/Listeners/DistributePixelEvent.php:83-92 | the `foreach` over the entries collects exactly the prefixes of the non-null keys, in any visiting order |
| LegacyListener.DistributePixelEvent.Handle | src/Listeners/DistributePixelEvent.php:24-72 | the outcome and the effects appended to the trace are exactly those of handling the event |
| LegacyListener.DistributePixelEvent.Route | src/Listeners/DistributePixelEvent.php:50-71 | after the application is found: destinations, id, log record and jobs, as specified |
| LegacyListener.DistributePixelEvent.Deliver | src/Listeners/DistributePixelEvent.php:60-71 | the log record when logging is on, then the jobs |
| LegacyListener.DistributePixelEvent.DispatchAll | src/Listeners/DistributePixelEvent.php:69-71 | the `foreach` over the destinations queues exactly the specified jobs and stops at the first TypeError |
| LegacyListener.SeenStep | src/Listeners/DistributePixelEvent.php:85-90 | visiting one more entry adds its prefix exactly when its value is not null |
| LegacyListener.DispatchesStep | src/Listeners/DistributePixelEvent.php:69-71 | one more destination after an error-free prefix adds exactly its own dispatch |
| LegacyListener.DispatchesStop | src/Listeners/DistributePixelEvent.php:69-71 | once a dispatch fails, the remaining destinations add nothing |
| LegacyManager.Application | src/PixelManager.php:73-82 | no application or null data gives []; an array is its entries; any other value breaks the `array` return type |
| LegacyManager.IsPlatformEnabled | src/PixelManager.php:55-66 | enabled exactly when one of the six required fields of the platform is set; a TypeError of the lookup propagates |
| LegacyManager.RequiredFieldIff | src/PixelManager.php:60-65 | the six `isset` tests are one test per required suffix |
| LegacyManager.PlatformEntries | src/PixelManager.php:95-99 | exactly the entries whose key starts with the platform's name and an underscore, with their values |
| LegacyManager.GetPlatformCredentials | src/PixelManager.php:90-102 | the `foreach` keeps exactly those entries; a TypeError of the lookup propagates |
| LegacyManager.EnabledHasEntries | src/PixelManager.php:55-102 | an enabled platform has at least one non-null entry among its credentials |
| LegacyManager.EnabledByOwnEntries | src/PixelManager.php:55-66 | whether a platform is enabled depends on its own entries only |
| LegacyManager.EventMappings | src/PixelManager.php:110-119 | without a type the whole mapping; with a type its entry, or [] when missing; an array in every case, or the TypeError of the `array` return type |
| LegacyManager.ListenerReadsSameMapping | src/PixelManager.php:110-119 | the listener reads the same list for a type as `getEventMappings` returns, when the type's entry is set |
| LegacyManager.Platforms | src/PixelManager.php:44-47 | the keys of the `platforms` setting, which must be an array |
| LegacyManager.PlatformsAreKeys | src/PixelManager.php:44-47 | with a `platforms` array in the package configuration, the names are its keys |
| Facade.Unwrapped | src/Presentation/Facades/PixelManagerFacadeImpl.php:34-37 | the inner `data` array when set, the whole input otherwise; a set non-array inner value is refused |
| Facade.Platforms | src/Presentation/Facades/PixelManagerFacadeImpl.php:47-57 | the six names, which are exactly the platform values in declaration order |
| Facade.ConfiguredFor | src/Presentation/Facades/PixelManagerFacadeImpl.php:89-107 | when not null, the answer is only the `configured` marker, never the secrets |
| Facade.EnabledIff | src/Presentation/Facades/PixelManagerFacadeImpl.php:65-81 | a name is enabled exactly when it is a listed platform and the application has valid credentials stored under it |
| Facade.ConfiguredIff | src/Presentation/Facades/PixelManagerFacadeImpl.php:89-107 | the marker comes back exactly for a listed platform with stored credentials, valid or not; an enabled platform always has it |
| Facade.EventMappings | src/Presentation/Facades/PixelManagerFacadeImpl.php:115-129 | without a type all mappings; [] for a name that is no event type; an array in every case |
| Facade.MappingsReadBack | src/Presentation/Facades/PixelManagerFacadeImpl.php:121-125 | a type mapped to platform names gets those names back, in order |
| Facade.UnknownNamesDropped | src/Presentation/Facades/PixelManagerFacadeImpl.php:121-125 | a type mapped only to names that are no platforms gets [] |
| Facade.NoPlatformNames | src/Application/Services/ConfigService.php:182-185 | names that are no platforms map to no platforms |
| Facade.PixelManagerFacadeImpl.constructor | src/Presentation/Facades/PixelManagerFacadeImpl.php:19-24 | the facade holds the given use case, configuration and repository |
| Facade.PixelManagerFacadeImpl.Track | src/Presentation/Facades/PixelManagerFacadeImpl.php:32-40 | over the corrected factory: an unwrapped input goes to the use case with the configured application id, and the outcome and emitted effects are those of handling it; a refused input emits nothing |
| Facade.PixelManagerFacadeImpl.TrackAsWritten | src/Presentation/Facades/PixelManagerFacadeImpl.php:32-40 | the same hand-off over the factory as written, so an unknown event type's Error escapes; a refused input emits nothing |
| Facade.PixelManagerFacadeImpl.IsPlatformEnabled | src/Presentation/Facades/PixelManagerFacadeImpl.php:65-81 | the answer is the enabled test on what the repository finds; the store is unchanged, and over a coherent cache it is the store's answer |
| Facade.PixelManagerFacadeImpl.GetPlatformCredentials | src/Presentation/Facades/PixelManagerFacadeImpl.php:89-107 | the answer is the marker test on what the repository finds; the store is unchanged, and over a coherent cache it is the store's answer |

## Left out

- HTTP transport: the `post` calls are not modelled. Each adapter receives the outcome of its call, a response or a thrown exception, as an input.
- Sleeping, `microtime`, `time()` and cache TTL expiry: the retry decorator's `usleep` calls are recorded as a list of back-off delays. The TTLs are stored but never expire. The logging decorator's duration is not modelled.
- Concurrency: the circuit-breaker and rate-limit counters are read and then written one request at a time, so nothing is claimed about concurrent workers.
- Floating point: amounts are `real`. `Money::formatted` (`number_format`) is not modelled.
- Php.StrToFloat: a numeric string is read exactly as a real. PHP rounds it to the nearest double, and a mantissa beyond 2^53 or an exponent beyond the double range (which PHP reads as INF) is not rounded here. Php.StrToInt inherits this for strings with a fraction or an exponent.
- Php.ToInt: a float outside the 64-bit range is truncated without being brought into range. PHP's result for such a float is platform behaviour.
- Config.ConfigService.GetEventMappings: a keyed entry gives its platforms once each, in declaration order (Meta, Google, TikTok, Pinterest, Snapchat, Brevo). PHP keeps the array's own order and repeats. Selection.SelectPlatforms, Selection.SelectedIff and Facade.EventMappings inherit this for keyed entries; which platforms are selected is the same.
- IpAddress is a thin wrapper around `filter_var`, and the IP validator is a parameter instead.
- EventId is a thin wrapper around MongoDB ObjectId generation, and a fresh id is given as a parameter instead.
- Log context arrays: a log line carries only its level and message.
- Persistence: the MongoDB and SQL repositories, the event-log repositories, the Eloquent models and the migrations are database I/O and are not part of this model.
- The facade's credentials repository is modelled as the caching repository over a map that stands for the store behind it.
- The legacy manager's application query is a parameter holding the found application's `data` attribute.
- Queue jobs (`SendPixelEventJob`, `src/Jobs/*`) and the legacy platform actions (`src/Actions/*`) are not part of this model. The distributor and the legacy listener record each queued job as an effect.
- Framework glue: the service providers, `PixelEventCreated` and `PixelManager::track` (which fires the framework event) are not part of this model. The configuration file's event mappings are used only as constant data. The provider's decorator list is modelled, as `AdapterFactory.ProviderDecorators`.
- `BotDetector::currentRequestIsBot`, `BotDetector::getCurrentUserAgent` and `UserAgent::fromRequest` read the current request and are not modelled.
- Interfaces carry no behaviour. Each adapter class is a constructor of one datatype, and each repository or encryptor is one concrete class.
- CredentialsMapping.ToDomain: PHP arrays keep insertion order, and the stored array's key order is taken to be the order the mapper writes (a precondition of the round-trip lemmas).
- LegacyListener.Destinations: an allowed-platforms setting given as a dictionary instead of a list is read as having no elements.
- LegacyListener: no configuration item may be literally named with a whole dotted key such as `pixel-manager.event_mappings.purchase`, because `Arr::get` would then read that item.
- LegacyListener: PHP's conversion of a non-string scalar to a string (`cast`) is a parameter. Its results are not modelled.
- CredentialsEncryption: the single-value `encrypt` and `decrypt` are the `Cipher` parameter's functions. The logger's context arrays are dropped.
- LegacyManager.Platforms: gives the setting's keys as a set. It does not keep `array_keys`' order, or integer keys of a list.
- LegacyManager.EventMappings: an `event_mappings` setting that is a string is read by key as null. PHP's string-offset access on it is not modelled.
- Byte strings: PHP strings are sequences of bytes, and the model's strings are sequences of characters. `strtolower`, `strtoupper` and `trim` touch ASCII characters only, as the model's do. MetaPlatformAdapter.UserDataPerson: `substr($gender, 0, 1)` takes the first byte, and the model takes the first character, so for a gender starting with a multibyte letter such as 'Ö' PHP sends a lone byte where the model sends the whole letter.
- Key order of PHP arrays: `Record` is an unordered map. The key order of every array the model builds as a record is not modelled: the adapters' `buildPayload` results (`MetaPlatformAdapter`, `GooglePlatformAdapter`, `TikTokPlatformAdapter`, `PinterestPlatformAdapter`, `SnapchatPlatformAdapter`, `BrevoPlatformAdapter`), `Distribution.SerializedEventFields` and `Distribution.SerializedPhone` (`serializeEvent`, `serializeCustomer`), `Distribution.SerializeCredentials` (`serializeCredentials`) and `LegacyManager.GetPlatformCredentials`. So nothing is claimed about the key order of the JSON a platform receives. The lemmas about key lists (`UserKeysDistinct`) state the source's order separately.
- Config: `array_filter` keeps the original keys of the names it keeps. The model gives the kept names as a list, because the callers only iterate over them.

## Findings

| source | as written | input that shows it | evidently intended | confidence | as-written member | corrected member |
|---|---|---|---|---|---|---|
| src/Application/Services/EventFactory.php:47 | an unknown event type runs `throw new DomainException(...)`, but `DomainException` is declared `abstract` (src/Domain/Exceptions/DomainException.php:15). The result is an `Error` ("Cannot instantiate abstract class"), not an exception, so it escapes `catch (\Exception)` in TrackPixelEventHandler. | event data `{"event_type": "foo"}` | a domain failure for the invalid event type, which the use case catches, logs as a domain validation error, and returns normally | not executed; high | Factory.CreateFromDtoAsWritten, Factory.UnknownTypeIsNotAnException, Tracking.UnknownTypeEscapesHandle, Facade.PixelManagerFacadeImpl.TrackAsWritten | Factory.CreateFromDto (the failure the facade's Track uses via Factory.CreateFromArray) |
| src/Infrastructure/Persistence/MongoDB/Mappings/CredentialsMapper.php:89 | `toArray` stores each property value as it is, so the Pinterest environment is stored as the enum object. `toDomain` passes that object to `PinterestEnvironment::from`, which under strict types refuses it with a TypeError. | an application with Pinterest credentials, mapped by `toArray` and read back by `toDomain` | the environment stored by its backing value, so that every application reads back as stored | not executed; medium, because a storage layer that writes a backed enum as its value would hide it | CredentialsMapping.ToArray, CredentialsMapping.PinterestBreaksRoundTrip | CredentialsMapping.ToArrayCorrected, CredentialsMapping.RoundTripCorrected |
| src/Domain/Entities/Platform.php:108 | `addSupportedEvent` guards the append with `supportsEventType`, which is false on a disabled platform, so the event is appended again though it is already listed | a disabled platform whose supported events already contain `purchase`, then `addSupportedEvent(purchase)` | add an event only when it is not yet listed, whatever the flag | not executed; medium | Entities.DisabledAddDuplicates | Entities.AddedEventsDeduplicated, Entities.DeduplicatedStaysDistinct |
