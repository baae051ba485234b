/** The package's public facade: track an event through the use case, and
    answer questions about platforms, credentials and event mappings. */
module Facade {
  import opened Php
  import opened Foreign
  import opened PlatformTypes
  import EventTypes
  import opened Config
  import opened PixelCredentials
  import opened Entities
  import opened CredentialCache
  import opened Factory
  import opened Tracking
  import opened LaravelConfig

  /** `$eventData['data'] ?? $eventData`, passed to the command's `array`
      parameter: an inner value that is set but no array is refused. */
  function Unwrapped(eventData: Record): (r: Result<Record>)
    ensures !IsSet(eventData, "data") ==> r == Ok(eventData)
    ensures IsSet(eventData, "data") ==> (r.Ok? <==> eventData["data"].IsArray())
    ensures IsSet(eventData, "data") && eventData["data"].VDict? ==> r == Ok(eventData["data"].entries)
    ensures r.Err? ==> r.error == TypeError("array")
  {
    var v := Coalesce(Lookup(eventData, "data"), VDict(eventData));
    if v.IsArray() then Ok(Entries(v)) else Err(TypeError("array"))
  }

  /** `platforms()`: the six names, as written out in the facade. */
  function Platforms(): (r: seq<string>)
    ensures r == PlatformTypes.Values()
  {
    ValuesLiteral();
    ["meta", "google", "tiktok", "pinterest", "snapchat", "brevo"]
  }

  /** `hasCredentialsFor` on the repository's copy: stored and valid. */
  predicate StoredHas(s: Stored, p: PlatformType) {
    p.Value() in s.credentials && s.credentials[p.Value()].IsValid()
  }

  /** `isPlatformEnabled`, given what the repository finds: false with no
      credentials and for a name that is no platform (the ValueError of
      `from` is caught). */
  predicate Enabled(found: Option<Stored>, name: string) {
    found.Some? && From(name).Ok? && StoredHas(found.value, From(name).value)
  }

  const ConfiguredMarker := VDict(map["configured" := VBool(true)])

  /** `getPlatformCredentials`, given what the repository finds: a marker
      that the platform is configured, or null. */
  function ConfiguredFor(found: Option<Stored>, name: string): (r: Option<Value>)
    ensures r.Some? ==> r.value == ConfiguredMarker
  {
    if found.Some? && From(name).Ok? && CredentialsIn(found.value, From(name).value).Some?
    then Some(ConfiguredMarker) else None
  }

  /** A name is enabled exactly when it is one of the listed platforms and
      the application has valid credentials stored under it. */
  lemma EnabledIff(found: Option<Stored>, name: string)
    ensures Enabled(found, name) <==>
      found.Some? && name in Platforms() && name in found.value.credentials &&
      found.value.credentials[name].IsValid()
  {
  }

  /** The marker is returned exactly for a listed platform with stored
      credentials, valid or not; an enabled platform always has one. */
  lemma ConfiguredIff(found: Option<Stored>, name: string)
    ensures ConfiguredFor(found, name).Some? <==>
      found.Some? && name in Platforms() && name in found.value.credentials
    ensures Enabled(found, name) ==> ConfiguredFor(found, name).Some?
  {
  }

  /** `getEventMappings` on a configuration: all mappings without a type,
      [] for a name that is no event type (the ValueError of `from` is
      caught), otherwise the names of the type's platforms. A TypeError of
      the configuration propagates. */
  function EventMappings(config: ConfigService, eventType: Option<string>): (r: Result<Value>)
    ensures eventType.None? ==> r == config.GetAllEventMappings()
    ensures eventType.Some? && EventTypes.TryFromString(eventType.value).None? ==> r == Ok(VList([]))
    ensures r.Ok? ==> r.value.IsArray()
  {
    match eventType
    case None => config.GetAllEventMappings()
    case Some(s) =>
      match EventTypes.TryFromString(s)
      case None => Ok(VList([]))
      case Some(t) =>
        var ps :- config.GetEventMappings(t);
        Ok(VList(Names(ps)))
  }

  /** A type mapped to a list of platform names gets those names back, in
      their order. */
  lemma MappingsReadBack(config: ConfigService, t: EventTypes.EventType, ps: seq<PlatformType>)
    requires config.MappingFor(t) == VList(Names(ps))
    ensures EventMappings(config, Some(t.Value())) == Ok(VList(Names(ps)))
  {
    EventTypes.TryFromValue(t);
    MappedNames(ps);
  }

  /** A type mapped to names that are no platforms gets []. */
  lemma UnknownNamesDropped(config: ConfigService, t: EventTypes.EventType, names: seq<string>)
    requires forall i :: 0 <= i < |names| ==> names[i] !in PlatformTypes.Values()
    requires config.MappingFor(t) == VList(seq(|names|, i requires 0 <= i < |names| => VStr(names[i])))
    ensures EventMappings(config, Some(t.Value())) == Ok(VList([]))
  {
    EventTypes.TryFromValue(t);
    NoPlatformNames(names);
  }

  lemma {:induction false} NoPlatformNames(names: seq<string>)
    requires forall i :: 0 <= i < |names| ==> names[i] !in PlatformTypes.Values()
    ensures MappedPlatforms(seq(|names|, i requires 0 <= i < |names| => VStr(names[i]))) == Ok([])
    decreases |names|
  {
    if |names| > 0 {
      var vs := seq(|names|, i requires 0 <= i < |names| => VStr(names[i]));
      var rest := seq(|names| - 1, i requires 0 <= i < |names| - 1 => VStr(names[1..][i]));
      assert vs[1..] == rest;
      NoPlatformNames(names[1..]);
      assert vs[0] == VStr(names[0]);
    }
  }

  class PixelManagerFacadeImpl {
    const trackHandler: TrackPixelEventHandler
    const config: ConfigService
    const credentialsRepo: CachedCredentialsRepository

    constructor (trackHandler: TrackPixelEventHandler, config: ConfigService, credentialsRepo: CachedCredentialsRepository)
      ensures this.trackHandler == trackHandler && this.config == config && this.credentialsRepo == credentialsRepo
    {
      this.trackHandler := trackHandler;
      this.config := config;
      this.credentialsRepo := credentialsRepo;
    }

    /** `track`: the unwrapped event and the configured application id go
        to the use case. `isBot`, `o`, `freshId`, `now` and `found` are what
        the use case's collaborators answer. The use case runs over the
        corrected factory, with the intended failure for an unknown event
        type; `TrackAsWritten` is the same over the factory as written. */
    method Track(eventData: Record, isBot: bool, o: Oracles, freshId: string, now: int,
                 found: ApplicationCredentials?) returns (r: Result<()>)
      requires found != null ==> found.Valid()
      modifies trackHandler.distributor.outbox
      ensures Unwrapped(eventData).Err? ==>
        r == Err(TypeError("array")) && trackHandler.distributor.outbox.trace == old(trackHandler.distributor.outbox.trace)
      ensures Unwrapped(eventData).Ok? ==>
        var h := Handled(trackHandler.config, trackHandler.distributor.config, isBot,
                         CreateFromArray(Unwrapped(eventData).value, o, freshId, now), config.GetAppId(),
                         if found == null then None else Some((found.keys, found.credentials)));
        r == h.0 && trackHandler.distributor.outbox.trace == old(trackHandler.distributor.outbox.trace) + h.1
    {
      var command := Unwrapped(eventData);
      if command.Err? {
        return Err(command.error);
      }
      r := trackHandler.HandleIntended(command.value, config.GetAppId(), isBot, o, freshId, now, found);
    }

    /** `track` as written: the same hand-off over the factory as it is
        written, where an unknown event type raises an Error that escapes
        the use case. */
    method TrackAsWritten(eventData: Record, isBot: bool, o: Oracles, freshId: string, now: int,
                          found: ApplicationCredentials?) returns (r: Result<()>)
      requires found != null ==> found.Valid()
      modifies trackHandler.distributor.outbox
      ensures Unwrapped(eventData).Err? ==>
        r == Err(TypeError("array")) && trackHandler.distributor.outbox.trace == old(trackHandler.distributor.outbox.trace)
      ensures Unwrapped(eventData).Ok? ==>
        var h := Handled(trackHandler.config, trackHandler.distributor.config, isBot,
                         CreateFromArrayAsWritten(Unwrapped(eventData).value, o, freshId, now), config.GetAppId(),
                         if found == null then None else Some((found.keys, found.credentials)));
        r == h.0 && trackHandler.distributor.outbox.trace == old(trackHandler.distributor.outbox.trace) + h.1
    {
      var command := Unwrapped(eventData);
      if command.Err? {
        return Err(command.error);
      }
      r := trackHandler.Handle(command.value, config.GetAppId(), isBot, o, freshId, now, found);
    }

    /** `isPlatformEnabled`: asks the repository for the configured
        application's credentials. */
    method IsPlatformEnabled(platform: string) returns (b: bool)
      modifies credentialsRepo
      ensures credentialsRepo.store == old(credentialsRepo.store)
      ensures var key := AppKey(config.GetAppId());
        old(credentialsRepo.Hit(config.GetAppId())) ==> b == Enabled(old(credentialsRepo.cache[key]), platform)
      ensures !old(credentialsRepo.Hit(config.GetAppId())) ==>
        b == Enabled(Get(credentialsRepo.store, config.GetAppId()), platform)
      ensures old(credentialsRepo.Coherent()) ==>
        credentialsRepo.Coherent() && b == Enabled(Get(credentialsRepo.store, config.GetAppId()), platform)
    {
      var credentials := credentialsRepo.FindByApplicationId(config.GetAppId());
      if credentials.None? {
        return false;
      }
      var platformType := From(platform);
      if platformType.Err? {
        return false;
      }
      b := StoredHas(credentials.value, platformType.value);
    }

    /** `getPlatformCredentials`: whether the platform is configured, never
        the secrets themselves. */
    method GetPlatformCredentials(platform: string) returns (r: Option<Value>)
      modifies credentialsRepo
      ensures credentialsRepo.store == old(credentialsRepo.store)
      ensures r.Some? ==> r.value == ConfiguredMarker
      ensures var key := AppKey(config.GetAppId());
        old(credentialsRepo.Hit(config.GetAppId())) ==> r == ConfiguredFor(old(credentialsRepo.cache[key]), platform)
      ensures !old(credentialsRepo.Hit(config.GetAppId())) ==>
        r == ConfiguredFor(Get(credentialsRepo.store, config.GetAppId()), platform)
      ensures old(credentialsRepo.Coherent()) ==>
        credentialsRepo.Coherent() && r == ConfiguredFor(Get(credentialsRepo.store, config.GetAppId()), platform)
    {
      var credentials := credentialsRepo.FindByApplicationId(config.GetAppId());
      if credentials.None? {
        return None;
      }
      var platformType := From(platform);
      if platformType.Err? {
        return None;
      }
      var platformCreds := CredentialsIn(credentials.value, platformType.value);
      r := if platformCreds.Some? then Some(ConfiguredMarker) else None;
    }
  }
}
