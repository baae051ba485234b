/** The per-platform credential records. Each knows its platform, whether
    it is complete, and how to read itself from a flat settings array whose
    keys carry the platform's prefix. */
module PixelCredentials {
  import opened Php
  import opened PlatformTypes
  import opened PinterestEnvironments

  datatype Credentials =
    | MetaCredentials(pixelId: string, accessToken: string)
    | GoogleCredentials(measurementId: string, apiSecret: string)
    | TikTokCredentials(pixelCode: string, accessToken: string)
    | PinterestCredentials(accountId: string, accessToken: string, environment: PinterestEnvironment)
    | SnapchatCredentials(pixelId: string, accessToken: string)
    | BrevoCredentials(apiKey: string)
  {
    /** `getPlatformType`. */
    function PlatformType(): PlatformType {
      match this
      case MetaCredentials(_, _) => Meta
      case GoogleCredentials(_, _) => Google
      case TikTokCredentials(_, _) => TikTok
      case PinterestCredentials(_, _, _) => Pinterest
      case SnapchatCredentials(_, _) => Snapchat
      case BrevoCredentials(_) => Brevo
    }

    /** `isValid`: every string field is non-empty in PHP's sense ('' and
        '0' are empty); Pinterest's environment plays no part. */
    predicate IsValid() {
      match this
      case MetaCredentials(a, b) => !EmptyStr(a) && !EmptyStr(b)
      case GoogleCredentials(a, b) => !EmptyStr(a) && !EmptyStr(b)
      case TikTokCredentials(a, b) => !EmptyStr(a) && !EmptyStr(b)
      case PinterestCredentials(a, b, _) => !EmptyStr(a) && !EmptyStr(b)
      case SnapchatCredentials(a, b) => !EmptyStr(a) && !EmptyStr(b)
      case BrevoCredentials(a) => !EmptyStr(a)
    }

    /** The public properties in declaration order, as PHP's
        `get_object_vars` lists them; the environment is the enum object. */
    function Properties(): (r: seq<(string, Value)>)
      ensures |r| == |PropertyNames(PlatformType())|
      ensures forall i :: 0 <= i < |r| ==> r[i].0 == PropertyNames(PlatformType())[i]
    {
      match this
      case MetaCredentials(a, b) => [("pixelId", VStr(a)), ("accessToken", VStr(b))]
      case GoogleCredentials(a, b) => [("measurementId", VStr(a)), ("apiSecret", VStr(b))]
      case TikTokCredentials(a, b) => [("pixelCode", VStr(a)), ("accessToken", VStr(b))]
      case PinterestCredentials(a, b, e) =>
        [("accountId", VStr(a)), ("accessToken", VStr(b)), ("environment", VEnum(e.Value()))]
      case SnapchatCredentials(a, b) => [("pixelId", VStr(a)), ("accessToken", VStr(b))]
      case BrevoCredentials(a) => [("apiKey", VStr(a))]
    }
  }

  /** Property names of each platform's record, in declaration order. */
  function PropertyNames(p: PlatformType): seq<string> {
    match p
    case Meta => ["pixelId", "accessToken"]
    case Google => ["measurementId", "apiSecret"]
    case TikTok => ["pixelCode", "accessToken"]
    case Pinterest => ["accountId", "accessToken", "environment"]
    case Snapchat => ["pixelId", "accessToken"]
    case Brevo => ["apiKey"]
  }

  /** `$data[$k] ?? ''` passed to a `string` parameter under strict types. */
  function StringOrEmpty(data: Record, k: string): (r: Result<string>)
    ensures !IsSet(data, k) ==> r == Ok("")
    ensures IsSet(data, k) ==> r == AsString(data[k], k)
  {
    AsString(Coalesce(Lookup(data, k), VStr("")), k)
  }

  /** The settings keys each platform's `fromArray` reads, in order. */
  function Keys(p: PlatformType): seq<string> {
    match p
    case Meta => ["meta_pixel_id", "meta_access_token"]
    case Google => ["google_measurement_id", "google_api_secret"]
    case TikTok => ["tiktok_pixel_code", "tiktok_access_token"]
    case Pinterest => ["pinterest_account_id", "pinterest_access_token"]
    case Snapchat => ["snapchat_pixel_id", "snapchat_access_token"]
    case Brevo => ["brevo_api_key"]
  }

  const PinterestEnvironmentKey := "pinterest_environment"

  /** The environment `PinterestCredentials::fromArray` picks: PRODUCTION
      when the key is not set, otherwise `PinterestEnvironment::from`. */
  function EnvironmentFrom(data: Record): (r: Result<PinterestEnvironment>)
    ensures !IsSet(data, PinterestEnvironmentKey) ==> r == Ok(Production)
    ensures IsSet(data, PinterestEnvironmentKey) ==> r == PinterestEnvironments.From(data[PinterestEnvironmentKey])
  {
    if IsSet(data, PinterestEnvironmentKey) then PinterestEnvironments.From(data[PinterestEnvironmentKey]) else Ok(Production)
  }

  /** `fromArray` of the platform's record. Missing keys read as ''; a set
      key holding a non-string is a TypeError; an unknown Pinterest
      environment fails as `PinterestEnvironment::from` does. */
  function FromArray(p: PlatformType, data: Record): (r: Result<Credentials>)
    ensures r.Ok? ==> r.value.PlatformType() == p
    ensures r.Ok? ==> forall i :: 0 <= i < |Keys(p)| ==>
      VStr(r.value.Properties()[i].1.s) == Coalesce(Lookup(data, Keys(p)[i]), VStr(""))
    ensures r.Ok? <==>
      (forall i :: 0 <= i < |Keys(p)| ==> StringOrEmpty(data, Keys(p)[i]).Ok?) &&
      (p == Pinterest ==> EnvironmentFrom(data).Ok?)
  {
    var k := Keys(p);
    match p
    case Meta =>
      var a :- StringOrEmpty(data, k[0]); var b :- StringOrEmpty(data, k[1]);
      Ok(MetaCredentials(a, b))
    case Google =>
      var a :- StringOrEmpty(data, k[0]); var b :- StringOrEmpty(data, k[1]);
      Ok(GoogleCredentials(a, b))
    case TikTok =>
      var a :- StringOrEmpty(data, k[0]); var b :- StringOrEmpty(data, k[1]);
      Ok(TikTokCredentials(a, b))
    case Pinterest =>
      var e :- EnvironmentFrom(data);
      var a :- StringOrEmpty(data, k[0]); var b :- StringOrEmpty(data, k[1]);
      Ok(PinterestCredentials(a, b, e))
    case Snapchat =>
      var a :- StringOrEmpty(data, k[0]); var b :- StringOrEmpty(data, k[1]);
      Ok(SnapchatCredentials(a, b))
    case Brevo =>
      var a :- StringOrEmpty(data, k[0]);
      Ok(BrevoCredentials(a))
  }

  /** A settings array lacking one of the platform's keys yields invalid
      credentials (or a failure). */
  lemma MissingKeyInvalid(p: PlatformType, data: Record, i: nat)
    requires i < |Keys(p)| && Keys(p)[i] !in data
    ensures FromArray(p, data).Ok? ==> !FromArray(p, data).value.IsValid()
  {
  }

  /** Validity is exactly "all its fields read non-empty". */
  lemma ValidIffFieldsPresent(p: PlatformType, data: Record)
    requires FromArray(p, data).Ok?
    ensures FromArray(p, data).value.IsValid() <==>
      forall i :: 0 <= i < |Keys(p)| ==> Truthy(Coalesce(Lookup(data, Keys(p)[i]), VStr("")))
  {
  }

  /** Without `pinterest_environment` the environment is PRODUCTION. */
  lemma PinterestDefaultsToProduction(data: Record)
    requires !IsSet(data, PinterestEnvironmentKey) && FromArray(Pinterest, data).Ok?
    ensures FromArray(Pinterest, data).value.environment == Production
  {
  }

  /** An unknown environment string makes `fromArray` fail. */
  lemma UnknownEnvironmentFails(data: Record)
    requires IsSet(data, PinterestEnvironmentKey)
    requires data[PinterestEnvironmentKey].VStr?
    requires data[PinterestEnvironmentKey].s !in {"sandbox", "production"}
    ensures FromArray(Pinterest, data).Err? && FromArray(Pinterest, data).error.ValueError?
  {
  }

  /** `fromArray` reads back a record from an array holding each of its
      string properties under the platform's key and, for Pinterest, the
      environment's backing value under the environment key. */
  lemma FromArrayReadsBack(c: Credentials, data: Record)
    requires forall i :: 0 <= i < |Keys(c.PlatformType())| ==>
      Keys(c.PlatformType())[i] in data && data[Keys(c.PlatformType())[i]] == c.Properties()[i].1
    requires c.PinterestCredentials? ==>
      PinterestEnvironmentKey in data && data[PinterestEnvironmentKey] == VStr(c.environment.Value())
    ensures FromArray(c.PlatformType(), data) == Ok(c)
  {
    var p := c.PlatformType();
    assert forall i :: 0 <= i < |Keys(p)| ==> IsSet(data, Keys(p)[i]);
    if c.PinterestCredentials? {
      FromValue(c.environment);
    }
  }

  /** An enum object under the environment key is a TypeError, whatever
      else the array holds. */
  lemma EnumEnvironmentRejected(data: Record)
    requires PinterestEnvironmentKey in data && data[PinterestEnvironmentKey].VEnum?
    ensures FromArray(Pinterest, data).Err? && FromArray(Pinterest, data).error.TypeError?
  {
  }

  /** Any set value that is no string, an integer included, is refused
      with a TypeError. */
  lemma NonStringEnvironmentRejected(data: Record)
    requires IsSet(data, PinterestEnvironmentKey) && !data[PinterestEnvironmentKey].VStr?
    ensures FromArray(Pinterest, data).Err? && FromArray(Pinterest, data).error.TypeError?
  {
  }
}
