/** The six concrete platform adapter classes behind one interface: the
    platform each serves, the event types it takes, their names on that
    platform, and how one delivery's HTTP outcome becomes a response. */
module AdapterClasses {
  import opened Php
  import opened EventTypes
  import opened PlatformTypes
  import opened HttpAdapters
  import MetaPlatformAdapter
  import GooglePlatformAdapter
  import TikTokPlatformAdapter
  import PinterestPlatformAdapter
  import SnapchatPlatformAdapter
  import BrevoPlatformAdapter

  datatype AdapterClass = MetaAdapter | GoogleAdapter | TikTokAdapter | PinterestAdapter | SnapchatAdapter | BrevoAdapter
  {
    /** `getPlatformType`. */
    function PlatformType(): PlatformType {
      match this
      case MetaAdapter => MetaPlatformAdapter.Platform
      case GoogleAdapter => GooglePlatformAdapter.Platform
      case TikTokAdapter => TikTokPlatformAdapter.Platform
      case PinterestAdapter => PinterestPlatformAdapter.Platform
      case SnapchatAdapter => SnapchatPlatformAdapter.Platform
      case BrevoAdapter => BrevoPlatformAdapter.Platform
    }

    /** `supports`. */
    predicate Supports(t: EventType) {
      match this
      case MetaAdapter => MetaPlatformAdapter.Supports(t)
      case GoogleAdapter => GooglePlatformAdapter.Supports(t)
      case TikTokAdapter => TikTokPlatformAdapter.Supports(t)
      case PinterestAdapter => PinterestPlatformAdapter.Supports(t)
      case SnapchatAdapter => SnapchatPlatformAdapter.Supports(t)
      case BrevoAdapter => BrevoPlatformAdapter.Supports(t)
    }

    /** `mapEventName`. */
    function MapEventName(t: EventType): Option<string> {
      match this
      case MetaAdapter => MetaPlatformAdapter.MapEventName(t)
      case GoogleAdapter => GooglePlatformAdapter.MapEventName(t)
      case TikTokAdapter => TikTokPlatformAdapter.MapEventName(t)
      case PinterestAdapter => PinterestPlatformAdapter.MapEventName(t)
      case SnapchatAdapter => SnapchatPlatformAdapter.MapEventName(t)
      case BrevoAdapter => BrevoPlatformAdapter.MapEventName(t)
    }

    /** The response and log lines of one `sendEvent`, given what its POST
        gave: GA4 overrides the shared classification. */
    function Deliver(outcome: HttpOutcome, now: int): Delivery {
      if this == GoogleAdapter then ClassifyGoogle(outcome, now) else Classify(outcome, now)
    }
  }

  /** The class registered for each platform by default. */
  function DefaultFor(p: PlatformType): (cls: AdapterClass)
    ensures cls.PlatformType() == p
  {
    match p
    case Meta => MetaAdapter
    case Google => GoogleAdapter
    case TikTok => TikTokAdapter
    case Pinterest => PinterestAdapter
    case Snapchat => SnapchatAdapter
    case Brevo => BrevoAdapter
  }

  /** Each class serves a different platform. */
  lemma PlatformInjective(a: AdapterClass, b: AdapterClass)
    requires a.PlatformType() == b.PlatformType()
    ensures a == b
  {
  }

  /** A type is unsupported only by TikTok, Pinterest and Snapchat, and only
      when it is a product customisation. */
  lemma SupportsIff(cls: AdapterClass, t: EventType)
    ensures !cls.Supports(t) <==>
      t == CustomizeProduct && cls in {TikTokAdapter, PinterestAdapter, SnapchatAdapter}
  {
  }

  /** Meta, GA4 and Brevo name every type; the others leave some unnamed,
      among them types they support. */
  lemma UnnamedTypes(cls: AdapterClass, t: EventType)
    ensures cls in {MetaAdapter, GoogleAdapter, BrevoAdapter} ==> cls.MapEventName(t).Some?
    ensures TikTokAdapter.Supports(ViewCart) && TikTokAdapter.MapEventName(ViewCart).None?
    ensures SnapchatAdapter.Supports(AddPaymentInfo) && SnapchatAdapter.MapEventName(AddPaymentInfo).None?
    ensures PinterestAdapter.Supports(Subscription) && PinterestAdapter.MapEventName(Subscription).None?
  {
  }
}
