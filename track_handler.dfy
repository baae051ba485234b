/** The track-event use case: skip bots, build the event, distribute it,
    and log whatever the factory or the distributor throws. */
module Tracking {
  import opened Php
  import opened Foreign
  import opened PixelCredentials
  import opened Events
  import opened Entities
  import opened Config
  import opened Factory
  import opened Distribution
  import Dtos
  import EventTypes

  const BotMessage := "Pixel Manager: Bot detected, skipping event tracking"
  const DomainMessage := "Pixel Manager: Domain validation error"
  const UnexpectedMessage := "Pixel Manager: Unexpected error tracking event"

  /** The two catch blocks: a domain exception, then any other
      `\Exception`, is logged and swallowed; an `\Error` propagates. */
  function Caught(err: Error, prior: seq<Effect>): (r: (Result<()>, seq<Effect>))
    ensures err.IsException() <==> r.0.Ok?
    ensures r.0.Err? ==> r == (Err(err), prior)
    ensures err.IsDomainException() ==> r.1 == prior + [Logged(ErrorLevel, DomainMessage)]
  {
    if err.IsDomainException() then (Ok(()), prior + [Logged(ErrorLevel, DomainMessage)])
    else if err.IsException() then (Ok(()), prior + [Logged(ErrorLevel, UnexpectedMessage)])
    else (Err(err), prior)
  }

  /** What `handle` leaves behind, given what the factory returns, whether
      the request is a bot, and the credentials the repository finds. */
  function Handled(config: ConfigService, distConfig: ConfigService, isBot: bool,
                   created: Result<PixelEvent>, appId: int,
                   found: Option<(seq<string>, map<string, Credentials>)>): (Result<()>, seq<Effect>)
    requires found.Some? ==> forall k :: k in found.value.0 ==> k in found.value.1
  {
    if config.IsBotDetectionEnabled() && isBot then (Ok(()), [Logged(Debug, BotMessage)])
    else match created
      case Err(err) => Caught(err, [])
      case Ok(e) =>
        var d := Distributed(distConfig, e, appId, found);
        if d.0.Err? then Caught(d.0.error, d.1) else d
  }

  class TrackPixelEventHandler {
    const config: ConfigService
    const distributor: EventDistributor

    constructor (distributor: EventDistributor, config: ConfigService)
      ensures this.distributor == distributor && this.config == config
    {
      this.distributor := distributor;
      this.config := config;
    }

    /** `handle` as written. `isBot` is the detector's answer for the current
        request, `freshId` and `now` the new event's id and instant, and
        `found` the repository's answer for the application. */
    method Handle(eventData: Record, applicationId: int, isBot: bool, o: Oracles, freshId: string,
                  now: int, found: ApplicationCredentials?) returns (r: Result<()>)
      requires found != null ==> found.Valid()
      modifies distributor.outbox
      ensures var h := Handled(config, distributor.config, isBot,
                               CreateFromArrayAsWritten(eventData, o, freshId, now), applicationId,
                               if found == null then None else Some((found.keys, found.credentials)));
        r == h.0 && distributor.outbox.trace == old(distributor.outbox.trace) + h.1
    {
      if config.IsBotDetectionEnabled() && isBot {
        distributor.outbox.Emit(Logged(Debug, BotMessage));
        return Ok(());
      }
      var created := CreateFromArrayAsWritten(eventData, o, freshId, now);
      r := Track(created, applicationId, found);
    }

    /** `handle` with the factory throwing its intended domain exception. */
    method HandleIntended(eventData: Record, applicationId: int, isBot: bool, o: Oracles, freshId: string,
                          now: int, found: ApplicationCredentials?) returns (r: Result<()>)
      requires found != null ==> found.Valid()
      modifies distributor.outbox
      ensures var h := Handled(config, distributor.config, isBot,
                               CreateFromArray(eventData, o, freshId, now), applicationId,
                               if found == null then None else Some((found.keys, found.credentials)));
        r == h.0 && distributor.outbox.trace == old(distributor.outbox.trace) + h.1
    {
      if config.IsBotDetectionEnabled() && isBot {
        distributor.outbox.Emit(Logged(Debug, BotMessage));
        return Ok(());
      }
      var created := CreateFromArray(eventData, o, freshId, now);
      r := Track(created, applicationId, found);
    }

    /** The `try` block and its two `catch` blocks. */
    method Track(created: Result<PixelEvent>, applicationId: int, found: ApplicationCredentials?)
      returns (r: Result<()>)
      requires found != null ==> found.Valid()
      modifies distributor.outbox
      ensures var h := match created
          case Err(err) => Caught(err, [])
          case Ok(e) =>
            var d := Distributed(distributor.config, e, applicationId,
                                 if found == null then None else Some((found.keys, found.credentials)));
            if d.0.Err? then Caught(d.0.error, d.1) else d;
        r == h.0 && distributor.outbox.trace == old(distributor.outbox.trace) + h.1
    {
      if created.Err? {
        r := Catch(created.error);
        return;
      }
      var d := distributor.Distribute(created.value, applicationId, found);
      if d.Err? {
        r := Catch(d.error);
      } else {
        r := d;
      }
    }

    /** Logs a caught exception; an `\Error` is returned to the caller. */
    method Catch(err: Error) returns (r: Result<()>)
      modifies distributor.outbox
      ensures var c := Caught(err, old(distributor.outbox.trace));
        r == c.0 && distributor.outbox.trace == c.1
    {
      if err.IsDomainException() {
        distributor.outbox.Emit(Logged(ErrorLevel, DomainMessage));
        return Ok(());
      } else if err.IsException() {
        distributor.outbox.Emit(Logged(ErrorLevel, UnexpectedMessage));
        return Ok(());
      }
      return Err(err);
    }
  }

  // ------------------------------------------------------------ properties

  /** A bot request with detection on creates and distributes nothing. */
  lemma BotSkipped(config: ConfigService, distConfig: ConfigService, created: Result<PixelEvent>,
                   appId: int, found: Option<(seq<string>, map<string, Credentials>)>)
    requires found.Some? ==> forall k :: k in found.value.0 ==> k in found.value.1
    requires config.IsBotDetectionEnabled()
    ensures Handled(config, distConfig, true, created, appId, found) == (Ok(()), [Logged(Debug, BotMessage)])
  {
  }

  /** With detection off the detector's answer changes nothing. */
  lemma DetectorIgnoredWhenDisabled(config: ConfigService, distConfig: ConfigService,
                                    created: Result<PixelEvent>, appId: int,
                                    found: Option<(seq<string>, map<string, Credentials>)>)
    requires found.Some? ==> forall k :: k in found.value.0 ==> k in found.value.1
    requires !config.IsBotDetectionEnabled()
    ensures Handled(config, distConfig, true, created, appId, found) ==
            Handled(config, distConfig, false, created, appId, found)
  {
  }

  /** A domain exception from the factory reaches nobody: it is logged and
      nothing is distributed. */
  lemma DomainErrorSwallowed(config: ConfigService, distConfig: ConfigService, isBot: bool,
                             err: Error, appId: int,
                             found: Option<(seq<string>, map<string, Credentials>)>)
    requires found.Some? ==> forall k :: k in found.value.0 ==> k in found.value.1
    requires !(config.IsBotDetectionEnabled() && isBot) && err.IsDomainException()
    ensures Handled(config, distConfig, isBot, Err(err), appId, found) ==
            (Ok(()), [Logged(ErrorLevel, DomainMessage)])
  {
    assert [] + [Logged(ErrorLevel, DomainMessage)] == [Logged(ErrorLevel, DomainMessage)];
  }

  /** Otherwise the event is distributed exactly once, and what the
      distributor leaves behind comes first. */
  lemma DistributedOnce(config: ConfigService, distConfig: ConfigService, isBot: bool,
                        e: PixelEvent, appId: int,
                        found: Option<(seq<string>, map<string, Credentials>)>)
    requires found.Some? ==> forall k :: k in found.value.0 ==> k in found.value.1
    requires !(config.IsBotDetectionEnabled() && isBot)
    ensures var d := Distributed(distConfig, e, appId, found);
      var h := Handled(config, distConfig, isBot, Ok(e), appId, found);
      (d.0.Ok? ==> h == d) &&
      (d.0.Err? ==> h.1[..|d.1|] == d.1 && (h.0.Ok? <==> d.0.error.IsException()))
  {
    var d := Distributed(distConfig, e, appId, found);
    if d.0.Err? {
      var h := Caught(d.0.error, d.1);
      assert h.1[..|d.1|] == d.1;
    }
  }

  /** An unknown event type: as written, instantiating the abstract
      `DomainException` raises an `\Error` that escapes `handle`; as
      intended, it is logged as a domain validation error. */
  lemma UnknownTypeEscapesHandle(config: ConfigService, distConfig: ConfigService, o: Oracles,
                                 freshId: string, now: int, appId: int,
                                 found: Option<(seq<string>, map<string, Credentials>)>)
    requires found.Some? ==> forall k :: k in found.value.0 ==> k in found.value.1
    requires !config.IsBotDetectionEnabled()
    ensures var data := map["event_type" := VStr("foo")];
      Handled(config, distConfig, false, CreateFromArrayAsWritten(data, o, freshId, now), appId, found) ==
        (Err(AbstractInstantiation("DomainException")), []) &&
      Handled(config, distConfig, false, CreateFromArray(data, o, freshId, now), appId, found) ==
        (Ok(()), [Logged(ErrorLevel, DomainMessage)])
  {
    var data := map["event_type" := VStr("foo")];
    UnknownTypeIsNotAnException(data, o, freshId, now);
    var asWritten := CreateFromArrayAsWritten(data, o, freshId, now);
    var intended := CreateFromArray(data, o, freshId, now);
    assert Caught(asWritten.error, []) == (Err(AbstractInstantiation("DomainException")), []);
    assert [] + [Logged(ErrorLevel, DomainMessage)] == [Logged(ErrorLevel, DomainMessage)];
    assert Caught(intended.error, []) == (Ok(()), [Logged(ErrorLevel, DomainMessage)]);
  }
}
